# Models of kappa and the engines it carries

Kappa is a log database with a small query language for namespaces. The repository carries
the engines it stands on: a YAML 1.1 library, a gossip membership protocol, a lexer toolkit,
a paragraph wrapper and a goroutine life-cycle helper. This project models the parts of them
that are hard to get right, and proves what those parts are for.

Code that changes objects in place is a class here, with methods that have the source's
branches and loops; each method is proved against a specification function, and the
properties are proved of those functions or of the invariants the methods keep.

## What is modelled

**YAML.** `YamlStep` specifies the pushdown parser one step at a time. `YamlInvariant` is the
invariant that relates its state stack, its mark stack and the collections left open to a
zipper over event trees (`YamlEvents`); `YamlTermination` is its measure; `YamlParser` is the
parser object. `YamlGrammar` and `YamlSentences` are the token grammar of the comment on the
parser and its events, with the proof that every sound sentence is parsed to the end; `YamlKeyless`,
`YamlBrackets` and `YamlExactly` prove that no other sentence is, `YamlConverse` reads the syntax off any run that
ends, and `YamlLanguage` puts both together for all tokens. `YamlBuilder` is the tree builder,
`YamlTrees` shows that events tell about one tree only, `YamlLoad` puts parser and builder together.
`YamlQuoted` specifies what a double-quoted scalar means and how it can be written; `YamlScalarScanner`,
`YamlEmitter` and `YamlScalarRoundTrip` are the scanner, the writer with its 128-byte buffer, and their
composition, with line folding on or off. `YamlReader` is the UTF-8 reader over arbitrary reads.
`YamlKeys`, `YamlKeysInvariant`, `YamlLookahead` and `YamlTokenScanner` are the token queue with simple
keys, indentation and flow levels: tokens are handed out while KEY and BLOCK-MAPPING-START are still
being inserted, and the result is that of scanning the whole text at once. `YamlOpeners` is about the starts of
block collections in every text; `YamlScanSteps`, `YamlLayout`, `YamlFlowLayout`, `YamlBlockLayout` and
`YamlDocumentLayout` define how nodes, collections and documents are laid out in columns and lines, and prove that
such texts are scanned to the tokens that spell them; `YamlLoadText` takes them to the tree of nodes.

**Membership.** `Swim` specifies what a member believes and says, `SwimCluster` follows whole
clusters with lost, late and repeated messages, and `Memberlist` is the object with its list,
its map and its probe order. `ProtocolVersions` is the check of protocol versions,
`BroadcastQueue` the retransmit-limited queue, `Datagram` the packing of messages.

**Query language.** `SklReader`, `SklLexer` and `SklParser` are the reader and the parser with
their two 3-slot rings over the scanner; `SklRoundTrip` is the round trip with the printer.
`CommaLists` and `Namespaces` are the namespace store with its comma-joined strings, `Executor`
executes statements, `NamespaceRuns` follows whole runs of both, `NamespaceGrants` reads rights off their history.

**Others.** `WrapWords` is the paragraph wrapper, `WrapWordsLong` is about its over-long lines,
`Tombs` is the life cycle of goroutines.

## Where the code and its documentation differ

The models follow the code. What was found:

- The comment on the YAML grammar lets the key of a pair be left out. In a flow sequence the parser
  then consumes whatever token stands in the place of the key: `[? :]` and `[?, ]` still come out right,
  `[? : b]` fails, and in `[?]` it is the closing bracket that is taken for the key. A block mapping
  that starts with `: b` fails too (`ParsedExactly`, `MissingPairKeyIsRejected`, `BracketIsSwallowed`,
  `ValueWithoutKeyIsRejected`).
- `save_simple_key` has a panic described as one that should not happen. It happens, for
  example, on two dashes, a flow sequence or quoted scalar broken over two lines, and a word behind it
  (`PanicsExactly`, `KeyCheckFails`).
- The test for a byte order mark looks at the start of the value, whatever character is written: a
  value that begins with one is escaped throughout (`NeedsEscapeIs`).
- `WrapWords` never returns when no breaking of the words costs less than the sentinel, for
  example when the last word is longer than the limit (`EndsExactly`); and its comment promises
  that only single words make a line too long, which holds where the penalty outweighs all slack
  (`LongLineOfShortWords`, `AllStraggle`, `ChosenTidyExactly`, `LargePenalty`).
- `decodeCompoundMessage` computes the size of the length table in 8 bits: from 128 parts on it
  reads from the wrong place (`RoundTripExactly`, `TooManyParts`).
- `sendMsg` leaves no room for the table entry of the message itself: without encryption, or with
  its version 1, a datagram with broadcasts in it may take 1402 bytes instead of 1400
  (`PiggybackOverruns`, `TwoBytesTooMany`).
- Between the two halves of `Leave` a suspicion may raise the incarnation, and the node's own
  death message is then ignored (`LeaveDies`, `LeaveCanFail`).
- `QueueBroadcast` skips the entry behind one it removes. That does no harm only because there
  is at most one entry a node (`SkippingExactly`, `Valid`).
- The lexer drops a bare prefix in front of a quoted identifier, and takes a NUL character for
  the end of the input (`IdentExact`, `EOF`).
- `CreateChild` is documented to give the child the same users. It stores them under a key that
  is the list itself (`ChildUsersExactly`). `Get` is documented to create what is missing, and
  does not.
- A permission name with a comma grants something else than its name (`GrantsExactly`).
- An admin who creates a namespace without a parent is told of an internal error, any other user
  that the parent does not exist (`CreateResponse`). Statements that drop a namespace are parsed
  and printed, but not executed.
- A tomb that died without an error takes an error given to `Kill` afterwards as its reason
  (`RunExactly`, `OnlyForward`).

## How the models read

- A Go error return is a Boolean or a datatype; a panic that can happen is a result of its own.
- Bytes are integers below 256, characters of UTF-8 texts are code points; SKL texts are strings.
- Random choices are arbitrary values in range; the order in which a map is walked is arbitrary.
- Reads deliver any number of bytes, writes are refused from some call on.
- What the bolt database refuses (empty bucket names and keys) is taken from its interface; bolt
  is not part of this model.

## Model

| member | source | states |
|---|---|---|
| YamlEvents.FeedEmits | Godeps/_workspace/src/gopkg.in/yaml.v2/parserc.go:93-993 | Feeding an event the grammar allows appends exactly that event to what has been read and keeps the zipper well formed. |
| YamlEvents.EmittedIsPrefix | Godeps/_workspace/src/gopkg.in/yaml.v2/parserc.go:93-993 | Whatever a well-formed zipper has read is a prefix of some word of the event grammar, and a whole word once the stream end is read. |
| YamlEvents.FinishExtends | Godeps/_workspace/src/gopkg.in/yaml.v2/parserc.go:93-993 | Every unfinished node can be completed to a valid tree whose events start with those already read. |
| YamlTokens.PropertiesContent | Godeps/_workspace/src/gopkg.in/yaml.v2/parserc.go:386-430 | Anchor and tag tokens in front of a node are consumed and nothing else; the anchor reported is the one read. |
| YamlTokens.PendingFilled | Godeps/_workspace/src/gopkg.in/yaml.v2/parserc.go:93-993 | Adding the awaited child to the innermost open collection wakes exactly the return state on top of the stack. |
| YamlStep.Resolves | Godeps/_workspace/src/gopkg.in/yaml.v2/parserc.go:432-452 | The first directive with the handle gives the prefix of the tag. |
| YamlStep.StandardTags | Godeps/_workspace/src/gopkg.in/yaml.v2/parserc.go:1008-1011 | Unless a document declares them itself, `!` stands for itself and `!!` for the tags of YAML: `!!str` is tag:yaml.org,2002:str. |
| YamlInvariant.LeafFits | Godeps/_workspace/src/gopkg.in/yaml.v2/parserc.go:360-578 | After a leaf the invariant of the pushdown machine holds again in the popped state. |
| YamlInvariant.OpenFits | Godeps/_workspace/src/gopkg.in/yaml.v2/parserc.go:360-578 | After a collection start the invariant holds in the first state of that collection, the return stack unchanged. |
| YamlInvariant.CloseFits | Godeps/_workspace/src/gopkg.in/yaml.v2/parserc.go:580-993 | Closing a collection pops its return state and, for a bracketed collection, its mark; the invariant holds again. |
| YamlInvariant.ChildDue | Godeps/_workspace/src/gopkg.in/yaml.v2/parserc.go:580-993 | From a collection state a child may be due exactly in the state that follows it; the pushed state is the one that takes over. |
| YamlInvariant.PairFits | Godeps/_workspace/src/gopkg.in/yaml.v2/parserc.go:771-831 | Opening a single-pair mapping inside a flow sequence keeps the invariant and pushes no mark. |
| YamlInvariant.EndPairFits | Godeps/_workspace/src/gopkg.in/yaml.v2/parserc.go:879-889 | Ending it returns to the flow sequence with one more child. |
| YamlInvariant.Encloses | Godeps/_workspace/src/gopkg.in/yaml.v2/parserc.go:580-993 | The states stack is never empty inside a collection: the enclosing one waits for this node. |
| YamlInvariant.Resumes | Godeps/_workspace/src/gopkg.in/yaml.v2/parserc.go:93-173 | A state popped off the stack never opens a collection nor expects a node, and is the document end exactly when nothing is open. |
| YamlInvariant.CloseMarks | Godeps/_workspace/src/gopkg.in/yaml.v2/parserc.go:580-993 | The mark stack holds the start of every open bracketed collection; only indentless sequences have none. |
| YamlInvariant.Phases | Godeps/_workspace/src/gopkg.in/yaml.v2/parserc.go:93-358 | Outside collections the state alone tells where in the stream the machine is, and nothing is open. |
| YamlInvariant.RootDue | Godeps/_workspace/src/gopkg.in/yaml.v2/parserc.go:199-304 | Starting a document makes its root due with nothing else on the stacks. |
| YamlInvariant.StreamFits | Godeps/_workspace/src/gopkg.in/yaml.v2/parserc.go:175-358 | Steps between documents leave both stacks empty. |
| YamlTermination.StepDescends | Godeps/_workspace/src/gopkg.in/yaml.v2/parserc.go:93-173 | In every reachable state the pair (tokens left, rank of state and stack) drops lexicographically with every event. |
| YamlTermination.NodeDescends | Godeps/_workspace/src/gopkg.in/yaml.v2/parserc.go:360-578 | A node step that reads no token only pops. |
| YamlTermination.CollectionDescends | Godeps/_workspace/src/gopkg.in/yaml.v2/parserc.go:580-993 | The same measure for every collection state. |
| YamlTermination.DirectivesAdvance | Godeps/_workspace/src/gopkg.in/yaml.v2/parserc.go:199-281 | Skipping document end indicators stops at the end of the tokens. |
| YamlParser.Parser.constructor | Godeps/_workspace/src/gopkg.in/yaml.v2/parserc.go:175-197 | A new parser satisfies the invariant with nothing read. |
| YamlParser.Parser.PeekToken | Godeps/_workspace/src/gopkg.in/yaml.v2/parserc.go:46-51 | Gives the next token; past the last one it reports the scanner error. |
| YamlParser.Parser.SkipToken | Godeps/_workspace/src/gopkg.in/yaml.v2/parserc.go:54-59 | Consumes one token and records whether it ended the stream. |
| YamlParser.Parser.FailInCollection | Godeps/_workspace/src/gopkg.in/yaml.v2/parserc.go:83-90 | Records the mark of the innermost bracketed collection, which must exist, as context. |
| YamlParser.Parser.ParseProperties | Godeps/_workspace/src/gopkg.in/yaml.v2/parserc.go:386-430 | Consumes the properties and reports exactly what the specification of properties reads. |
| YamlParser.Parser.FindTag | Godeps/_workspace/src/gopkg.in/yaml.v2/parserc.go:432-452 | The tag is resolved with the declared handle, or is the suffix alone. |
| YamlParser.Parser.ParseNode | Godeps/_workspace/src/gopkg.in/yaml.v2/parserc.go:360-578 | One event of the grammar, or an error and nothing emitted; the outcome and the whole new control state are those of the node step. |
| YamlParser.Parser.ParseBlockSequenceEntry | Godeps/_workspace/src/gopkg.in/yaml.v2/parserc.go:580-629 | At an entry the child or an empty scalar, at BLOCK-END the end of the sequence, otherwise an error; exactly the specified event and new control state, and the invariant holds again. |
| YamlParser.Parser.ParseIndentlessSequenceEntry | Godeps/_workspace/src/gopkg.in/yaml.v2/parserc.go:632-660 | At an entry the child or an empty scalar, otherwise the end without consuming a token; the return state wakes. |
| YamlParser.Parser.ParseBlockMappingKey | Godeps/_workspace/src/gopkg.in/yaml.v2/parserc.go:676-722 | At KEY the key or an empty scalar, at BLOCK-END the end, otherwise an error; the value is due next. |
| YamlParser.Parser.ParseBlockMappingValue | Godeps/_workspace/src/gopkg.in/yaml.v2/parserc.go:734-753 | At VALUE the value or an empty scalar, otherwise an empty scalar in its place; a key is due next. |
| YamlParser.Parser.ParseFlowSequenceEntry | Godeps/_workspace/src/gopkg.in/yaml.v2/parserc.go:771-822 | A comma must precede every entry but the first; a KEY starts a single pair; the bracket ends the sequence. |
| YamlParser.Parser.ParseFlowSequenceEntryMappingKey | Godeps/_workspace/src/gopkg.in/yaml.v2/parserc.go:834-850 | The key, or an empty scalar for which the token in its place is consumed. |
| YamlParser.Parser.ParseFlowSequenceEntryMappingValue | Godeps/_workspace/src/gopkg.in/yaml.v2/parserc.go:855-874 | The value, or an empty scalar. |
| YamlParser.Parser.ParseFlowSequenceEntryMappingEnd | Godeps/_workspace/src/gopkg.in/yaml.v2/parserc.go:879-889 | Ends the single pair. |
| YamlParser.Parser.ParseFlowMappingKey | Godeps/_workspace/src/gopkg.in/yaml.v2/parserc.go:905-966 | A comma must precede every entry but the first; a full pair, a lone key, or the end. |
| YamlParser.Parser.ParseFlowMappingValue | Godeps/_workspace/src/gopkg.in/yaml.v2/parserc.go:971-993 | The value, or an empty scalar where it is missing or the key stood alone. |
| YamlParser.Parser.ProcessEmptyScalar | Godeps/_workspace/src/gopkg.in/yaml.v2/parserc.go:996-1006 | Fills the place of a missing child with an empty scalar. |
| YamlParser.Parser.ProcessDirectives | Godeps/_workspace/src/gopkg.in/yaml.v2/parserc.go:1014-1073 | At most one version directive, which must be 1.1, and no handle twice; the default handles are added. |
| YamlParser.Parser.AppendTagDirective | Godeps/_workspace/src/gopkg.in/yaml.v2/parserc.go:1076-1096 | Refuses a handle twice unless duplicates are allowed. |
| YamlParser.Parser.ParseStreamStart | Godeps/_workspace/src/gopkg.in/yaml.v2/parserc.go:175-193 | Emits the stream start or fails. |
| YamlParser.Parser.ParseDocumentStart | Godeps/_workspace/src/gopkg.in/yaml.v2/parserc.go:199-281 | An implicit document only at the start of the stream, an explicit one behind its directives, or the end of the stream. |
| YamlParser.Parser.ParseDocumentContent | Godeps/_workspace/src/gopkg.in/yaml.v2/parserc.go:283-303 | The root, or an empty scalar if the document ends at once. |
| YamlParser.Parser.ParseDocumentEnd | Godeps/_workspace/src/gopkg.in/yaml.v2/parserc.go:306-330 | Ends the document and forgets its tag directives. |
| YamlParser.Parser.StateMachine | Godeps/_workspace/src/gopkg.in/yaml.v2/parserc.go:93-173 | Every state leads to exactly the specified outcome; one allowed event more, or an error. |
| YamlParser.Parser.Parse | Godeps/_workspace/src/gopkg.in/yaml.v2/parserc.go:62-73 | After the end or an error nothing more is emitted; otherwise one step is taken and the termination measure drops. |
| YamlParser.Parser.Run | Godeps/_workspace/src/gopkg.in/yaml.v2/parserc.go:62-173 | For every token sequence the events are a prefix of a stream word, complete if there was no error; anchors, aliases and scalar texts come in the order of the tokens; nothing is read past the stream end; and the loop terminates. |
| YamlGrammar.NodeGoes | Godeps/_workspace/src/gopkg.in/yaml.v2/parserc.go:10-43 | A sound node spelled by the token grammar is parsed to exactly its events, whatever may follow it, back to the return state. |
| YamlGrammar.CollectionGoes | Godeps/_workspace/src/gopkg.in/yaml.v2/parserc.go:10-43 | The same for each style of collection. |
| YamlGrammar.EntriesGo | Godeps/_workspace/src/gopkg.in/yaml.v2/parserc.go:10-43 | The entries of a collection, one after the other, and its end. |
| YamlGrammar.EntryGoes | Godeps/_workspace/src/gopkg.in/yaml.v2/parserc.go:10-43 | One entry of any style. |
| YamlGrammar.PairGoes | Godeps/_workspace/src/gopkg.in/yaml.v2/parserc.go:666-722 | A key with or without its value. |
| YamlGrammar.ValueGoes | Godeps/_workspace/src/gopkg.in/yaml.v2/parserc.go:724-757 | A value, given, empty or missing. |
| YamlGrammar.SinglePairGoes | Godeps/_workspace/src/gopkg.in/yaml.v2/parserc.go:759-889 | A single-pair mapping with a key node as an entry of a flow sequence. |
| YamlGrammar.KeylessGoes | Godeps/_workspace/src/gopkg.in/yaml.v2/parserc.go:828-874 | KEY VALUE without either node: VALUE is consumed in the place of the key, and the pair of two empty scalars comes out all the same. |
| YamlGrammar.LastHollowGoes | Godeps/_workspace/src/gopkg.in/yaml.v2/parserc.go:828-889 | KEY alone, last and with a comma behind it: the comma is consumed in the place of the key, and the closing bracket still ends the sequence. |
| YamlGrammar.ValueContinues | Godeps/_workspace/src/gopkg.in/yaml.v2/parserc.go:27-30 | In a block mapping a lone key and a VALUE behind it spell the pair of both, so the order demanded of entries leaves no text out. |
| YamlGrammar.ChildGoes | Godeps/_workspace/src/gopkg.in/yaml.v2/parserc.go:10-43 | A child, or the empty scalar in its place. |
| YamlGrammar.RunsDeterministic | Godeps/_workspace/src/gopkg.in/yaml.v2/parserc.go:93-173 | From one configuration only one run reaches the end. |
| YamlKeyless.NodeDooms | Godeps/_workspace/src/gopkg.in/yaml.v2/parserc.go:10-43 | A node of the grammar that is not sound, wherever it stands, leads to a step that fails or to a closing bracket about to be consumed for a missing key. |
| YamlKeyless.EntriesDoom | Godeps/_workspace/src/gopkg.in/yaml.v2/parserc.go:10-43 | The same for the entries of a collection, the first that is not sound among them. |
| YamlKeyless.KeylessDooms | Godeps/_workspace/src/gopkg.in/yaml.v2/parserc.go:828-874 | KEY VALUE with a value node in a flow sequence: VALUE is taken for the key, the pair ends, and the node is found where a comma must be. |
| YamlKeyless.HollowDooms | Godeps/_workspace/src/gopkg.in/yaml.v2/parserc.go:828-874 | KEY alone that is not last, or has no comma behind it: the comma or the bracket is taken for the key. |
| YamlKeyless.UnkeyedFails | Godeps/_workspace/src/gopkg.in/yaml.v2/parserc.go:676-722 | An entry of a block mapping that starts with VALUE is refused. |
| YamlBrackets.StepKeeps | Godeps/_workspace/src/gopkg.in/yaml.v2/parserc.go:93-993 | From every reachable configuration a step leaves the number of flow sequences at work less that of brackets open as it is, and one more if it consumes a closing bracket for a missing key. |
| YamlBrackets.RunKeeps | Godeps/_workspace/src/gopkg.in/yaml.v2/parserc.go:93-993 | So that debt never falls over a run. |
| YamlBrackets.DoomedNeverEnds | Godeps/_workspace/src/gopkg.in/yaml.v2/parserc.go:93-993 | A run to the end of the stream that could have failed on the way has lost a bracket. |
| YamlBrackets.SpellCalm | Godeps/_workspace/src/gopkg.in/yaml.v2/parserc.go:10-43 | What the grammar spells has as many opening as closing square brackets, and no end of the stream in it. |
| YamlSentences.StreamRuns | Godeps/_workspace/src/gopkg.in/yaml.v2/parserc.go:9-43 | Every sentence of the token grammar whose documents are sound, with any number of documents, directives and end indicators, is parsed to the end and to exactly its events. |
| YamlSentences.DocumentsRun | Godeps/_workspace/src/gopkg.in/yaml.v2/parserc.go:9-43 | All documents from a document boundary on, and the end of the stream. |
| YamlSentences.DocumentRuns | Godeps/_workspace/src/gopkg.in/yaml.v2/parserc.go:195-330 | One document from boundary to boundary. |
| YamlSentences.DirectivesRead | Godeps/_workspace/src/gopkg.in/yaml.v2/parserc.go:1014-1073 | Directives are collected one by one, as declared. |
| YamlSentences.PairSentence | Godeps/_workspace/src/gopkg.in/yaml.v2/parserc.go:9-43 | `key: value` is such a sentence, with these tokens and these events. |
| YamlExactly.ParsedExactly | Godeps/_workspace/src/gopkg.in/yaml.v2/parserc.go:9-43 | A sentence of the grammar in the comment is parsed to the end if and only if it is sound: each pair of a flow sequence that lacks a key node has VALUE and lacks the value node too, or is KEY alone, last, with a comma behind it; and each entry of a block mapping has KEY. Whenever the parser comes to the end, its events are those of the sentence. |
| YamlExactly.UnsoundIsRejected | Godeps/_workspace/src/gopkg.in/yaml.v2/parserc.go:9-43 | No run over a sentence that is not sound comes to the end of the stream. |
| YamlExactly.MissingPairKeyIsRejected | Godeps/_workspace/src/gopkg.in/yaml.v2/parserc.go:759-850 | The tokens of `[? : b]`, from the stream start: the parser emits an empty pair, then fails. |
| YamlExactly.BracketIsSwallowed | Godeps/_workspace/src/gopkg.in/yaml.v2/parserc.go:759-850 | The tokens of `[?]`: the closing bracket is consumed as if it were the key, and the parser fails at the end of the stream. |
| YamlExactly.SecondBracketMakesUp | Godeps/_workspace/src/gopkg.in/yaml.v2/parserc.go:759-850 | The tokens of `[?]]`, no sentence of the grammar: the parser comes to the end of the stream. |
| YamlExactly.ValueWithoutKeyIsRejected | Godeps/_workspace/src/gopkg.in/yaml.v2/parserc.go:666-722 | The tokens of `: b`, from the stream start: never parsed. |
| YamlConverse.NodeBack | Godeps/_workspace/src/gopkg.in/yaml.v2/parserc.go:10-43 | A node that was parsed on the way to the end of the stream is a good and sound node of the grammar, spelled by the tokens consumed for it. |
| YamlConverse.CollectionBack | Godeps/_workspace/src/gopkg.in/yaml.v2/parserc.go:10-43 | The same for a collection of any style, from its opening token to its closing one. |
| YamlConverse.EntriesBack | Godeps/_workspace/src/gopkg.in/yaml.v2/parserc.go:580-993 | The entries from here on, separated as the grammar wants them, and the end of the collection. |
| YamlConverse.EntryBack | Godeps/_workspace/src/gopkg.in/yaml.v2/parserc.go:580-993 | One entry of any style; in a flow collection with the comma in front of it, unless it is the first. |
| YamlConverse.PairBack | Godeps/_workspace/src/gopkg.in/yaml.v2/parserc.go:676-757 | A key with or without its value. |
| YamlConverse.ValueBack | Godeps/_workspace/src/gopkg.in/yaml.v2/parserc.go:724-757 | A value, given, empty or missing. |
| YamlConverse.SinglePairBack | Godeps/_workspace/src/gopkg.in/yaml.v2/parserc.go:771-889 | A single pair of a flow sequence. |
| YamlConverse.HollowBack | Godeps/_workspace/src/gopkg.in/yaml.v2/parserc.go:828-889 | KEY and a comma consumed for its node: that is the last entry, and the bracket follows. |
| YamlConverse.DirectivesBack | Godeps/_workspace/src/gopkg.in/yaml.v2/parserc.go:1014-1073 | The directives read are good: %YAML 1.1 at most once, no handle twice. |
| YamlConverse.DocumentBack | Godeps/_workspace/src/gopkg.in/yaml.v2/parserc.go:195-330 | One document, from boundary to boundary. |
| YamlConverse.TidyIsSentence | Godeps/_workspace/src/gopkg.in/yaml.v2/parserc.go:9-43 | Whenever the parser comes to the end of the stream and consumed no token wrongly for a missing key, the tokens are a sentence of the grammar, good and sound. |
| YamlLanguage.SentencesExactly | Godeps/_workspace/src/gopkg.in/yaml.v2/parserc.go:9-43 | For all tokens: the parser comes to the end of the stream without consuming a token wrongly for a missing single-pair key if and only if the tokens are a sound sentence of the grammar. Wrongly: VALUE that does not end the pair, a comma that does not end the sequence, or the closing bracket. |
| YamlLanguage.NothingHarms | Godeps/_workspace/src/gopkg.in/yaml.v2/parserc.go:828-850 | On the way to the end of a sound sentence no token is consumed wrongly. |
| YamlLanguage.NodeSolid | Godeps/_workspace/src/gopkg.in/yaml.v2/parserc.go:10-43 | In what the grammar spells no VALUE stands behind a VALUE or a comma, and no comma behind a comma. |
| YamlTrees.TreeUnique | Godeps/_workspace/src/gopkg.in/yaml.v2/parserc.go:10-43 | The events of a node tell about one tree only, and it shows in them where the node ends. |
| YamlTrees.WordUnique | Godeps/_workspace/src/gopkg.in/yaml.v2/parserc.go:10-43 | No stream of events can be read as two lists of documents. |
| YamlTrees.TreeTold | Godeps/_workspace/src/gopkg.in/yaml.v2/parserc.go:10-43 | The tree that the syntax of a node describes is well formed, and the events of the node are its flattening. |
| YamlTrees.SentenceTold | Godeps/_workspace/src/gopkg.in/yaml.v2/parserc.go:10-43 | What a sentence tells is the word of the documents its syntax describes. |
| YamlBuilder.UnbuildBuilt | Godeps/_workspace/src/gopkg.in/yaml.v2/decode.go:105-184 | Flattening the tree that is built for a node gives back the events of that node, with what the tree keeps of them. |
| YamlBuilder.BuiltIsEven | Godeps/_workspace/src/gopkg.in/yaml.v2/decode.go:175-184 | Every mapping node has an even number of children. |
| YamlBuilder.AnchorsAreLast | Godeps/_workspace/src/gopkg.in/yaml.v2/decode.go:99-103 | An anchor stands for the last node before it that was given the name. |
| YamlBuilder.Builder.Skip | Godeps/_workspace/src/gopkg.in/yaml.v2/decode.go:67-77 | Advances by one event; refuses to go past the end of the stream. |
| YamlBuilder.Builder.Parse | Godeps/_workspace/src/gopkg.in/yaml.v2/decode.go:105-124 | Builds exactly the tree of the node the events tell about, or fails because the events end early; the panic on an unknown event is never reached. |
| YamlBuilder.Builder.ParseSequence | Godeps/_workspace/src/gopkg.in/yaml.v2/decode.go:164-173 | The same for a sequence, its children in order. |
| YamlBuilder.Builder.ParseMapping | Godeps/_workspace/src/gopkg.in/yaml.v2/decode.go:175-184 | The same for a mapping, children taken two by two. |
| YamlBuilder.Builder.ParseDocument | Godeps/_workspace/src/gopkg.in/yaml.v2/decode.go:134-145 | Builds the document node around its root. |
| YamlBuilder.Builder.ParsePair | Godeps/_workspace/src/gopkg.in/yaml.v2/decode.go:178-181 | Two children are appended at once, the key and its value, in order. |
| YamlBuilder.Builder.ParseFirst | Godeps/_workspace/src/gopkg.in/yaml.v2/decode.go:40-58 | On any prefix of a stream word the first document is built, or none, if and only if the events go one beyond its end; the panic is not reached. |
| YamlLoad.Load | Godeps/_workspace/src/gopkg.in/yaml.v2/decode.go:40-184 | Parser and builder together: the node is that of the first document of a stream word that begins with the events of the run over these tokens, and loading succeeds if and only if they go one beyond that document; always when the parser comes to the end; and on a sound sentence the node is that of the tree its first document describes. |
| YamlLoad.LoadedTree | Godeps/_workspace/src/gopkg.in/yaml.v2/decode.go:105-184 | Whatever is loaded is the tree of a valid node, flattens to its events, and has whole pairs in its mappings. |
| YamlLoad.ParseSentence | Godeps/_workspace/src/gopkg.in/yaml.v2/parserc.go:62-173 | The parser object on a sentence of the token grammar comes to the end without an error if and only if the sentence is sound, and then with exactly its events. |
| YamlUtf8.EncodeDecodes | Godeps/_workspace/src/gopkg.in/yaml.v2/yamlprivateh.go:156-173 | The width and the value read off the octets of an encoded character are its own. |
| YamlUtf8.EncodeAllAppend | Godeps/_workspace/src/gopkg.in/yaml.v2/yamlprivateh.go:156-173 | The encoding of a text is the encoding of its parts, joined. |
| YamlUtf8.BreaksAgree | Godeps/_workspace/src/gopkg.in/yaml.v2/yamlprivateh.go:102-108 | On an encoded character the octet test for line breaks says what it should about the character. |
| YamlUtf8.PrintablesAgree | Godeps/_workspace/src/gopkg.in/yaml.v2/yamlprivateh.go:63-73 | So does the test for printable characters, as far as it looks at the first octets. |
| YamlQuoted.EscapeRead | Godeps/_workspace/src/gopkg.in/yaml.v2/scannerc.go:2363-2467 | Every escape sequence the writer chooses reads back as the character it was written for. |
| YamlQuoted.HexRoundTrip | Godeps/_workspace/src/gopkg.in/yaml.v2/scannerc.go:2424-2439 | Hexadecimal digits read back as the number written. |
| YamlQuoted.WordStep | Godeps/_workspace/src/gopkg.in/yaml.v2/scannerc.go:2337-2480 | One round of the word loop: closing quote, escaped break, escape or character. |
| YamlQuoted.BlanksStep | Godeps/_workspace/src/gopkg.in/yaml.v2/scannerc.go:2493-2518 | One round of the loop over blanks and breaks. |
| YamlQuoted.FeedsFold | Godeps/_workspace/src/gopkg.in/yaml.v2/scannerc.go:2493-2539 | Between two words of a quoted text one line feed is a space, and each further one stays a line feed. |
| YamlQuoted.HexAnyCase | Godeps/_workspace/src/gopkg.in/yaml.v2/scannerc.go:2424-2439 | Lower-case and upper-case digits of an escape read alike. |
| YamlQuoted.WordRead | Godeps/_workspace/src/gopkg.in/yaml.v2/scannerc.go:2304-2557 | Reading on inside a word gives the rest of the value, whatever is written next. |
| YamlQuoted.BlanksRead | Godeps/_workspace/src/gopkg.in/yaml.v2/scannerc.go:2493-2539 | Reading on between words gives the blanks collected and the rest of the value. |
| YamlQuoted.FoldRead | Godeps/_workspace/src/gopkg.in/yaml.v2/scannerc.go:2493-2539 | A folded space, its line break and indentation read back as that one space. |
| YamlQuoted.QuotedRoundTrip | Godeps/_workspace/src/gopkg.in/yaml.v2/emitterc.go:1429-1548 | Everything the writer can put between the quotes, with any choice of folds, escapes and line break, scans back to exactly the value written. |
| YamlScalarScanner.Scanner.Skip | Godeps/_workspace/src/gopkg.in/yaml.v2/scannerc.go:491-496 | Steps over one character. |
| YamlScalarScanner.Scanner.Read | Godeps/_workspace/src/gopkg.in/yaml.v2/scannerc.go:515-535 | Copies one character; refuses an octet that starts none. |
| YamlScalarScanner.Scanner.SkipLine | Godeps/_workspace/src/gopkg.in/yaml.v2/scannerc.go:498-511 | Steps over one line break, carriage return and line feed together. |
| YamlScalarScanner.Scanner.ReadLineBreak | Godeps/_workspace/src/gopkg.in/yaml.v2/scannerc.go:538-568 | Copies a line break, normalised to a line feed except for LS and PS. |
| YamlScalarScanner.Scanner.ReadHex | Godeps/_workspace/src/gopkg.in/yaml.v2/scannerc.go:2424-2439 | Reads exactly the digits asked for, or fails. |
| YamlScalarScanner.Scanner.ScanEscape | Godeps/_workspace/src/gopkg.in/yaml.v2/scannerc.go:2363-2467 | Reads one escape sequence and yields the octets of its character. |
| YamlScalarScanner.Scanner.ScanDoubleQuoted | Godeps/_workspace/src/gopkg.in/yaml.v2/scannerc.go:2304-2557 | Accepts exactly the quoted texts of the specification, yields their value and stops behind the closing quote. |
| YamlScalarScanner.Scanner.ScanWord | Godeps/_workspace/src/gopkg.in/yaml.v2/scannerc.go:2337-2480 | The loop over one word. |
| YamlScalarScanner.Scanner.ScanBlanks | Godeps/_workspace/src/gopkg.in/yaml.v2/scannerc.go:2493-2539 | The loop over blanks and breaks, and what they amount to. |
| YamlEmitter.Emitter.constructor | Godeps/_workspace/src/gopkg.in/yaml.v2/apic.go:84-93 | An empty buffer of 128 bytes. |
| YamlEmitter.Emitter.Flush | Godeps/_workspace/src/gopkg.in/yaml.v2/emitterc.go:8-13 | Nothing written is lost or repeated; the buffer is empty afterwards unless the handler refuses. |
| YamlEmitter.Emitter.Put | Godeps/_workspace/src/gopkg.in/yaml.v2/emitterc.go:16-24 | Appends one byte to the output, flushing first where there is no room. |
| YamlEmitter.Emitter.PutBreak | Godeps/_workspace/src/gopkg.in/yaml.v2/emitterc.go:27-48 | Appends the line break chosen and starts a line. |
| YamlEmitter.Emitter.Write | Godeps/_workspace/src/gopkg.in/yaml.v2/emitterc.go:51-76 | Appends the octets of one character, in order, and steps behind it. |
| YamlEmitter.Emitter.CopyOctets | Godeps/_workspace/src/gopkg.in/yaml.v2/emitterc.go:51-76 | Octets copied from the last to the first land in their places. |
| YamlEmitter.Emitter.WriteAll | Godeps/_workspace/src/gopkg.in/yaml.v2/emitterc.go:79-86 | Appends a whole text. |
| YamlEmitter.Emitter.WriteIndent | Godeps/_workspace/src/gopkg.in/yaml.v2/emitterc.go:1201-1219 | Starts a line where one is needed and indents it. |
| YamlEmitter.Emitter.WriteIndicator | Godeps/_workspace/src/gopkg.in/yaml.v2/emitterc.go:1221-1234 | Appends the indicator, behind a blank where one is needed. |
| YamlEmitter.Emitter.PutHex | Godeps/_workspace/src/gopkg.in/yaml.v2/emitterc.go:1507-1514 | Appends exactly the digits of the character, highest first. |
| YamlEmitter.Emitter.WriteEscape | Godeps/_workspace/src/gopkg.in/yaml.v2/emitterc.go:1440-1519 | Appends the escape sequence of one character and steps behind it. |
| YamlEmitter.Emitter.PutEscape | Godeps/_workspace/src/gopkg.in/yaml.v2/emitterc.go:1464-1515 | Chooses the short form where there is one. |
| YamlEmitter.Emitter.PutLongEscape | Godeps/_workspace/src/gopkg.in/yaml.v2/emitterc.go:1496-1515 | Chooses x, u or U by the size of the character. |
| YamlEmitter.Emitter.WriteCharacter | Godeps/_workspace/src/gopkg.in/yaml.v2/emitterc.go:1436-1541 | One round of the loop: the escape or the character itself, or a fold. |
| YamlEmitter.Emitter.WriteRaw | Godeps/_workspace/src/gopkg.in/yaml.v2/emitterc.go:1520-1540 | A space may become a line break only where a fold is allowed, never at the ends of the value and never twice in a row. |
| YamlEmitter.Emitter.WriteCharacters | Godeps/_workspace/src/gopkg.in/yaml.v2/emitterc.go:1435-1541 | The loop writes the specified text for some choice of folds; none where folding is off. |
| YamlEmitter.Emitter.WriteDoubleQuoted | Godeps/_workspace/src/gopkg.in/yaml.v2/emitterc.go:1429-1548 | The quoted scalar, across any number of buffer flushes. |
| YamlEmitter.NeedsEscapeIs | Godeps/_workspace/src/gopkg.in/yaml.v2/emitterc.go:1436-1438 | The test on octets that sends a character to the escapes says exactly that the character needs one; behind a byte order mark at the start every character is sent there. |
| YamlScalarRoundTrip.WriteAndScan | Godeps/_workspace/src/gopkg.in/yaml.v2/scannerc.go:2304-2557 | Writer and scanner together, for every valid UTF-8 value, unicode setting, line break, width, indentation, column and fold setting: what is scanned is what was written, and it is written whenever the write handler takes ten bytes a character and the indentation for each, and four more. |
| YamlScalarRoundTrip.RawIsAllowed | Godeps/_workspace/src/gopkg.in/yaml.v2/readerc.go:333-349 | What the writer writes without an escape is a character the reader allows. |
| YamlScalarRoundTrip.WrittenIsAcceptable | Godeps/_workspace/src/gopkg.in/yaml.v2/readerc.go:91-391 | A stream that is a double-quoted scalar as the writer writes it is accepted by the reader, whatever the value, the folds and the line break. |
| YamlScalarRoundTrip.WrittenWhole | Godeps/_workspace/src/gopkg.in/yaml.v2/emitterc.go:1429-1548 | No character is cut in what is written. |
| YamlReader.ReadAll | Godeps/_workspace/src/gopkg.in/yaml.v2/readerc.go:91-391 | For every way the input arrives in pieces: it is accepted if and only if it is well-formed UTF-8 of allowed characters, and what is delivered is the input behind an optional byte order mark. |
| YamlReader.CheckEncodes | Godeps/_workspace/src/gopkg.in/yaml.v2/readerc.go:150-242 | Octets that pass the checks are the encoding of the character found: no overlong form, no surrogate, nothing above the range. |
| YamlReader.EncodedChecks | Godeps/_workspace/src/gopkg.in/yaml.v2/readerc.go:150-242 | The encoding of every character passes. |
| YamlReader.ExtendedCheck | Godeps/_workspace/src/gopkg.in/yaml.v2/readerc.go:150-242 | More input does not change the verdict on a character that is complete. |
| YamlReader.IncompleteIsShort | Godeps/_workspace/src/gopkg.in/yaml.v2/readerc.go:178-196 | Only fewer than four octets can be incomplete. |
| YamlReader.DecodedFirst | Godeps/_workspace/src/gopkg.in/yaml.v2/readerc.go:91-391 | What has been decoded is settled: any reading of the whole starts with it. |
| YamlReader.Rejects | Godeps/_workspace/src/gopkg.in/yaml.v2/readerc.go:150-348 | Octets that do not start with an allowed character make the whole input unacceptable, whatever follows. |
| YamlReader.Reader.constructor | Godeps/_workspace/src/gopkg.in/yaml.v2/apic.go:28-35 | Nothing read, both buffers empty. |
| YamlReader.Reader.ReadHandler | Godeps/_workspace/src/gopkg.in/yaml.v2/apic.go:42-50 | Delivers any number of the next input bytes that fits; the end only at the end. |
| YamlReader.Reader.UpdateRawBuffer | Godeps/_workspace/src/gopkg.in/yaml.v2/readerc.go:56-87 | Moves the remaining raw bytes to the front and reads behind them; nothing is lost. |
| YamlReader.Reader.DetermineEncoding | Godeps/_workspace/src/gopkg.in/yaml.v2/readerc.go:25-53 | Skips a UTF-8 byte order mark and nothing else, also when it arrives byte by byte. |
| YamlReader.Reader.DecodeOne | Godeps/_workspace/src/gopkg.in/yaml.v2/readerc.go:150-242 | Finds the character at the head of the raw buffer, or why there is none. |
| YamlReader.Reader.Store | Godeps/_workspace/src/gopkg.in/yaml.v2/readerc.go:354-374 | Writes the octets of the character behind the others, within the buffer. |
| YamlReader.Reader.DecodeRaw | Godeps/_workspace/src/gopkg.in/yaml.v2/readerc.go:139-378 | Moves all whole characters from the raw buffer to the other. |
| YamlReader.Reader.UpdateBuffer | Godeps/_workspace/src/gopkg.in/yaml.v2/readerc.go:91-391 | Afterwards there are as many characters as asked for (up to 8), or the final NUL; every write stays inside the buffers; failure means the input is unacceptable. |
| YamlReader.Reader.PutNul | Godeps/_workspace/src/gopkg.in/yaml.v2/readerc.go:380-386 | The final NUL comes once, behind everything. |
| YamlReader.Reader.Skip | Godeps/_workspace/src/gopkg.in/yaml.v2/scannerc.go:491-496 | The scanner takes the next character in full. |
| YamlReader.Reader.AtFront | Godeps/_workspace/src/gopkg.in/yaml.v2/readerc.go:91-391 | A NUL at the front is the final one, and then all of the input has been delivered. |
| YamlKeysInvariant.FetchKeeps | Godeps/_workspace/src/gopkg.in/yaml.v2/scannerc.go:665-840 | Whatever lexeme comes next, a fetch that succeeds keeps the scanner invariant: keys in range, tokens in the order of the text, block levels balanced, columns and levels in step. |
| YamlKeysInvariant.SettleKeeps | Godeps/_workspace/src/gopkg.in/yaml.v2/scannerc.go:665-690 | Dropping stale keys and closing deeper levels keeps it. |
| YamlKeysInvariant.SaveKeeps | Godeps/_workspace/src/gopkg.in/yaml.v2/scannerc.go:867-897 | Saving a simple key keeps its number within the queue. |
| YamlKeysInvariant.RemoveKeeps | Godeps/_workspace/src/gopkg.in/yaml.v2/scannerc.go:900-913 | Giving up a key keeps the others. |
| YamlKeysInvariant.RollKeeps | Godeps/_workspace/src/gopkg.in/yaml.v2/scannerc.go:937-961 | Opening a level at the end of the queue keeps it. |
| YamlKeysInvariant.RollBackKeeps | Godeps/_workspace/src/gopkg.in/yaml.v2/scannerc.go:937-961 | Opening a level in front of a key already queued keeps it. |
| YamlKeysInvariant.InsertKeyKeeps | Godeps/_workspace/src/gopkg.in/yaml.v2/scannerc.go:1274-1299 | KEY goes in front of the token it belongs to; keys of outer flow levels stay where they are. |
| YamlKeysInvariant.SimpleValueKeeps | Godeps/_workspace/src/gopkg.in/yaml.v2/scannerc.go:1274-1299 | Both retroactive insertions together. |
| YamlKeysInvariant.ComplexValueKeeps | Godeps/_workspace/src/gopkg.in/yaml.v2/scannerc.go:1301-1330 | A value behind a complex key, or without one. |
| YamlKeysInvariant.UnrollKeeps | Godeps/_workspace/src/gopkg.in/yaml.v2/scannerc.go:966-986 | Closing levels emits one BLOCK-END for each. |
| YamlKeysInvariant.UnrollStops | Godeps/_workspace/src/gopkg.in/yaml.v2/scannerc.go:966-986 | A column is one of the open levels exactly when unrolling to it stops there. |
| YamlKeysInvariant.DoneKeeps | Godeps/_workspace/src/gopkg.in/yaml.v2/scannerc.go:1016-1044 | At the end every level is closed and STREAM-END is last. |
| YamlKeysInvariant.OpenKeeps | Godeps/_workspace/src/gopkg.in/yaml.v2/scannerc.go:1105-1133 | Entering a flow collection keeps it. |
| YamlKeysInvariant.CloseKeeps | Godeps/_workspace/src/gopkg.in/yaml.v2/scannerc.go:1136-1165 | Leaving one keeps it. |
| YamlKeysInvariant.EntryKeeps | Godeps/_workspace/src/gopkg.in/yaml.v2/scannerc.go:1193-1271 | Block entries and explicit keys keep it. |
| YamlKeysInvariant.KeyableKeeps | Godeps/_workspace/src/gopkg.in/yaml.v2/scannerc.go:1339-1431 | Anchors, tags and scalars that may be simple keys keep it. |
| YamlKeysInvariant.MarkerKeeps | Godeps/_workspace/src/gopkg.in/yaml.v2/scannerc.go:1047-1102 | Directives and document indicators keep it. |
| YamlLookahead.FetchExtends | Godeps/_workspace/src/gopkg.in/yaml.v2/scannerc.go:626-662 | A fetch adds a token at least, and changes no token in front of which no key may start. |
| YamlLookahead.FetchAllExtends | Godeps/_workspace/src/gopkg.in/yaml.v2/scannerc.go:626-662 | Tokens handed out in the middle are tokens of the whole. |
| YamlLookahead.StaleNeutral | Godeps/_workspace/src/gopkg.in/yaml.v2/scannerc.go:842-863 | Dropping stale keys early changes nothing for the next fetch. |
| YamlLookahead.TokenisedSeals | Godeps/_workspace/src/gopkg.in/yaml.v2/scannerc.go:626-840 | The tokens of every text start with STREAM-START, end with STREAM-END, each only there, come in the order of the text, and are balanced. |
| YamlLookahead.PanicsExactly | Godeps/_workspace/src/gopkg.in/yaml.v2/scannerc.go:867-878 | The panic said not to happen when a required key is not allowed: it happens if and only if, in block context, on the line behind a flow collection or quoted scalar that began on an earlier line, a scalar, alias, anchor, tag or flow collection starts at the column of an open level. |
| YamlLookahead.KeyCheckFails | Godeps/_workspace/src/gopkg.in/yaml.v2/scannerc.go:867-878 | A text on which it happens. |
| YamlLookahead.DropsNothing | Godeps/_workspace/src/gopkg.in/yaml.v2/scannerc.go:842-863 | Looking at the queue again drops only keys that could not be used any more. |
| YamlLookahead.DropsAll | Godeps/_workspace/src/gopkg.in/yaml.v2/scannerc.go:842-863 | At the end of the text every possible key is stale. |
| YamlOpeners.StartsAreFollowed | Godeps/_workspace/src/gopkg.in/yaml.v2/scannerc.go:1193-1337 | In the tokens of every text each BLOCK-SEQUENCE-START is directly followed by BLOCK-ENTRY, and each BLOCK-MAPPING-START by KEY or VALUE. |
| YamlOpeners.FirmInsert | Godeps/_workspace/src/gopkg.in/yaml.v2/scannerc.go:1279-1301 | A KEY put in front of a token already scanned comes between no start and its entry. |
| YamlOpeners.FirmFetch | Godeps/_workspace/src/gopkg.in/yaml.v2/scannerc.go:665-840 | Every fetch keeps this. |
| YamlScanSteps.StepSimple | Godeps/_workspace/src/gopkg.in/yaml.v2/scannerc.go:1274-1309 | `:` behind a simple key: KEY in front of the key, and in block context the start of a mapping in front of that if the key stands right of the level; VALUE behind. |
| YamlScanSteps.StepKeyable | Godeps/_workspace/src/gopkg.in/yaml.v2/scannerc.go:867-897 | A scalar, alias, anchor or tag: its token, and a possible key where one may start. |
| YamlScanSteps.FailsExactly | Godeps/_workspace/src/gopkg.in/yaml.v2/scannerc.go:665-863 | Why a lexeme is refused, for every lexeme and every reachable state: a key that needs its `:` had none before its line ended or is given up, the lexeme cannot be scanned, or a block entry, or `:` behind no key, stands in block context where no key may start. |
| YamlScanSteps.OneValueToALine | Godeps/_workspace/src/gopkg.in/yaml.v2/scannerc.go:1193-1337 | Behind `:` of a simple key no block entry and no second `:` is accepted on the line. |
| YamlFlowLayout.InlineFed | Godeps/_workspace/src/gopkg.in/yaml.v2/scannerc.go:626-840 | A scalar, alias or flow collection that is well laid out, in block or flow context, adds just the tokens that spell it, and is a possible key if it stands on one line. |
| YamlFlowLayout.FlowFed | Godeps/_workspace/src/gopkg.in/yaml.v2/scannerc.go:1105-1166 | The same for a flow collection with pairs and further collections in it, over any number of lines. |
| YamlFlowLayout.ItemFed | Godeps/_workspace/src/gopkg.in/yaml.v2/scannerc.go:1168-1337 | One entry of it: a node, a pair asked for with `?`, or a pair with a simple key. |
| YamlFlowLayout.KeyAndColonFed | Godeps/_workspace/src/gopkg.in/yaml.v2/scannerc.go:1274-1309 | A simple key and its `:`: KEY goes in front of all the tokens of the key. |
| YamlBlockLayout.BlockFed | Godeps/_workspace/src/gopkg.in/yaml.v2/scannerc.go:626-840 | A node that is well laid out in block context adds just the tokens that spell it, once the levels it opened are closed. |
| YamlBlockLayout.CollectionFed | Godeps/_workspace/src/gopkg.in/yaml.v2/scannerc.go:937-987 | A block collection: its start where its first entry stands right of the level, its end where the text moves left of its column. |
| YamlBlockLayout.BlockItemsFed | Godeps/_workspace/src/gopkg.in/yaml.v2/scannerc.go:1193-1337 | Its entries, all in one column. |
| YamlBlockLayout.KeyLineFed | Godeps/_workspace/src/gopkg.in/yaml.v2/scannerc.go:1274-1309 | A simple key of a block mapping on its line, and `:`. |
| YamlBlockLayout.UnrollTo | Godeps/_workspace/src/gopkg.in/yaml.v2/scannerc.go:966-987 | Unrolling to the column of an open level closes just the levels above it. |
| YamlDocumentLayout.LaidOutIsSpelled | Godeps/_workspace/src/gopkg.in/yaml.v2/scannerc.go:626-840 | Every text that is well laid out, with any number of documents, directives and indicators, is scanned, and to just the tokens that spell its documents. |
| YamlDocumentLayout.LaidOutIsParsed | Godeps/_workspace/src/gopkg.in/yaml.v2/parserc.go:93-993 | And if its documents are good, it is parsed to the end of the stream if and only if they are sound, and then to the events that tell them. |
| YamlDocumentLayout.DocumentFed | Godeps/_workspace/src/gopkg.in/yaml.v2/scannerc.go:1047-1103 | One document with its directives and indicators. |
| YamlDocumentLayout.DashIsSequence | Godeps/_workspace/src/gopkg.in/yaml.v2/scannerc.go:1193-1233 | `- a` is STREAM-START, BLOCK-SEQUENCE-START, BLOCK-ENTRY, the scalar, BLOCK-END, STREAM-END. |
| YamlLoadText.LoadText | Godeps/_workspace/src/gopkg.in/yaml.v2/decode.go:40-184 | Scanner, parser and tree builder together load from a text that is well laid out, good and sound, the tree of its first document. |
| YamlTokenScanner.Scanner.InsertToken | Godeps/_workspace/src/gopkg.in/yaml.v2/apic.go:8-25 | The in-place insertion is insertion into a sequence, at the end for a negative position. |
| YamlTokenScanner.Scanner.MoveUp | Godeps/_workspace/src/gopkg.in/yaml.v2/apic.go:18-24 | Tokens from the place on move up by one. |
| YamlTokenScanner.Scanner.Compact | Godeps/_workspace/src/gopkg.in/yaml.v2/apic.go:11-17 | The queue moves to the front of its buffer unchanged. |
| YamlTokenScanner.Scanner.Append | Godeps/_workspace/src/gopkg.in/yaml.v2/apic.go:18-19 | Appending keeps the queue, in a larger buffer if need be. |
| YamlTokenScanner.Scanner.StaleSimpleKeys | Godeps/_workspace/src/gopkg.in/yaml.v2/scannerc.go:842-863 | Keys of another line or too far behind are dropped, a required one is an error. |
| YamlTokenScanner.Scanner.SaveSimpleKey | Godeps/_workspace/src/gopkg.in/yaml.v2/scannerc.go:867-897 | Records the next token as a possible key, after removing the one on this level. |
| YamlTokenScanner.Scanner.RemoveSimpleKey | Godeps/_workspace/src/gopkg.in/yaml.v2/scannerc.go:900-913 | A required key that is removed is an error. |
| YamlTokenScanner.Scanner.RollIndent | Godeps/_workspace/src/gopkg.in/yaml.v2/scannerc.go:937-961 | Opens a level where the column is deeper, the start token at the end or in front of a token queued. |
| YamlTokenScanner.Scanner.UnrollIndent | Godeps/_workspace/src/gopkg.in/yaml.v2/scannerc.go:966-986 | Closes the levels deeper than the column. |
| YamlTokenScanner.Scanner.FetchStreamStart | Godeps/_workspace/src/gopkg.in/yaml.v2/scannerc.go:990-1013 | The first token. |
| YamlTokenScanner.Scanner.FetchStreamEnd | Godeps/_workspace/src/gopkg.in/yaml.v2/scannerc.go:1016-1044 | Closes all levels and appends the last token. |
| YamlTokenScanner.Scanner.FetchDocumentMarker | Godeps/_workspace/src/gopkg.in/yaml.v2/scannerc.go:1047-1102 | Closes all block levels, gives up the key, lets none start behind the marker, and appends it. |
| YamlTokenScanner.Scanner.FetchFlowCollectionStart | Godeps/_workspace/src/gopkg.in/yaml.v2/scannerc.go:1105-1133 | The bracket may itself be a simple key; a flow level more, a key may start behind it. |
| YamlTokenScanner.Scanner.FetchFlowCollectionEnd | Godeps/_workspace/src/gopkg.in/yaml.v2/scannerc.go:1136-1165 | Gives up the key of the level and the level; no key may start behind the bracket. |
| YamlTokenScanner.Scanner.FetchFlowEntry | Godeps/_workspace/src/gopkg.in/yaml.v2/scannerc.go:1168-1190 | Gives up the key of the level; one may start behind the comma. |
| YamlTokenScanner.Scanner.FetchBlockEntry | Godeps/_workspace/src/gopkg.in/yaml.v2/scannerc.go:1193-1231 | In block context an error where no key may start; opens a block sequence where the column is deeper. |
| YamlTokenScanner.Scanner.FetchKey | Godeps/_workspace/src/gopkg.in/yaml.v2/scannerc.go:1235-1271 | The same for an explicit key and a block mapping. |
| YamlTokenScanner.Scanner.FetchColon | Godeps/_workspace/src/gopkg.in/yaml.v2/scannerc.go:1274-1335 | Behind a simple key puts KEY in front of it and, where the column is deeper, BLOCK-MAPPING-START in front of that, both at positions not handed out yet; otherwise opens the mapping here. |
| YamlTokenScanner.Scanner.FetchContent | Godeps/_workspace/src/gopkg.in/yaml.v2/scannerc.go:1339-1431 | Records that a simple key may start here and appends the token. |
| YamlTokenScanner.Scanner.FetchBlockScalar | Godeps/_workspace/src/gopkg.in/yaml.v2/scannerc.go:1377-1393 | Gives up the key; one may start behind the scalar. |
| YamlTokenScanner.Scanner.FetchNextToken | Godeps/_workspace/src/gopkg.in/yaml.v2/scannerc.go:665-840 | One lexeme more, and the goal of the whole text is unchanged. |
| YamlTokenScanner.Scanner.FetchMoreTokens | Godeps/_workspace/src/gopkg.in/yaml.v2/scannerc.go:626-662 | Fetches until the head of the queue is final: no key may start there any more. |
| YamlTokenScanner.Scanner.HeadMayMove | Godeps/_workspace/src/gopkg.in/yaml.v2/scannerc.go:637-648 | Whether some possible key has the number of the head. |
| YamlTokenScanner.Scanner.PeekToken | Godeps/_workspace/src/gopkg.in/yaml.v2/parserc.go:46-51 | Gives the next token of the whole text, or fails exactly as the whole text does. |
| YamlTokenScanner.Scanner.SkipToken | Godeps/_workspace/src/gopkg.in/yaml.v2/parserc.go:54-59 | Hands out that token for good: it is in its place in the result for the whole text. |
| YamlTokenScanner.ScanTokens | Godeps/_workspace/src/gopkg.in/yaml.v2/scannerc.go:571-662 | For every text: looking ahead only as far as needed delivers exactly the tokens that fetching the whole text at once gives, fails exactly when that fails or a required key is open at the end, and panics exactly when that panics. |
| YamlTokenScanner.Drain | Godeps/_workspace/src/gopkg.in/yaml.v2/scannerc.go:571-597 | The loop of the consumer, started at any fresh scanner. |
| WrapWords.Paragraph.OptIsLower | Godeps/_workspace/src/github.com/kr/text/wrap.go:43-86 | No breaking whose last line fits costs less than the recurrence says. |
| WrapWords.Paragraph.Chosen | Godeps/_workspace/src/github.com/kr/text/wrap.go:79-85 | The recorded breaks are such a breaking and cost exactly that. |
| WrapWords.Paragraph.MinReached | Godeps/_workspace/src/github.com/kr/text/wrap.go:65-76 | The least cost of a row is reached by the recorded break, or is the sentinel. |
| WrapWords.Paragraph.FeasibleExactly | Godeps/_workspace/src/github.com/kr/text/wrap.go:43-86 | The sentinel is left exactly when some breaking whose last line fits costs less than it. |
| WrapWords.Paragraph.EndsExactly | Godeps/_workspace/src/github.com/kr/text/wrap.go:79-85 | The loop that collects the lines ends if and only if there is such a breaking; otherwise it stays at the first word for ever. |
| WrapWords.Paragraph.LastWordFits | Godeps/_workspace/src/github.com/kr/text/wrap.go:61-63 | Such a breaking needs a last word that fits. |
| WrapWords.Paragraph.CutJoins | Godeps/_workspace/src/github.com/kr/text/wrap.go:79-85 | Cutting at any breaking gives non-empty lines whose words are the words given. |
| WrapWords.LongLineOfShortWords | Godeps/_workspace/src/github.com/kr/text/wrap.go:36-42 | The comment says a line is over-long only if a single word is; here every word fits and the breaking that is found has an over-long line. |
| WrapWords.Lengths | Godeps/_workspace/src/github.com/kr/text/wrap.go:44-53 | The table holds the length of every possible line. |
| WrapWords.Breaks | Godeps/_workspace/src/github.com/kr/text/wrap.go:55-77 | The tables of costs and breaks are those of the recurrence. |
| WrapWords.FillRow | Godeps/_workspace/src/github.com/kr/text/wrap.go:61-76 | One row: the last line free, the others squared slack plus penalty. |
| WrapWords.Wrap | Godeps/_workspace/src/github.com/kr/text/wrap.go:43-86 | The lines are those of a breaking of least total cost among all whose last line fits; they are not empty and hold the words in order. |
| WrapWords.Collect | Godeps/_workspace/src/github.com/kr/text/wrap.go:79-85 | The loop that collects the lines. |
| WrapWordsLong.BreakStraggles | Godeps/_workspace/src/github.com/kr/text/wrap.go:61-76 | A line chosen that is not the last has several words and is too long, if and only if every line from there that is not costs more. |
| WrapWordsLong.ChosenTidyExactly | Godeps/_workspace/src/github.com/kr/text/wrap.go:36-86 | The breaking that is found keeps the promise of the comment if and only if no line on the way through the breaks is forced in that way. |
| WrapWordsLong.TidyOptIsLower | Godeps/_workspace/src/github.com/kr/text/wrap.go:36-42 | No breaking that keeps the promise costs less than the recurrence over such lines says. |
| WrapWordsLong.TidyOptReached | Godeps/_workspace/src/github.com/kr/text/wrap.go:36-42 | And one costs that. |
| WrapWordsLong.AllStraggle | Godeps/_workspace/src/github.com/kr/text/wrap.go:36-86 | Every breaking of least cost breaks the promise if and only if keeping it costs more than the least cost. |
| WrapWordsLong.LargePenalty | Godeps/_workspace/src/github.com/kr/text/wrap.go:36-42 | If all words fit and the penalty is more than all the slack there can be, the promise is kept. |
| WrapWordsLong.LargePenaltyIsFeasible | Godeps/_workspace/src/github.com/kr/text/wrap.go:79-85 | And there are lines at all, if that slack stays below the sentinel. |
| BroadcastQueue.SkippingExactly | Godeps/_workspace/src/github.com/hashicorp/memberlist/queue.go:54-63 | The loop that removes invalidated entries does not step back after a removal; it removes all of them if and only if no two neighbours are about the node. |
| BroadcastQueue.TransmitCounts | Godeps/_workspace/src/github.com/hashicorp/memberlist/queue.go:71-112 | A round that sends a broadcast counts it once more; what leaves leaves with its count. |
| BroadcastQueue.TransmitKeeps | Godeps/_workspace/src/github.com/hashicorp/memberlist/queue.go:71-112 | Every entry is kept or leaves, none is lost or doubled. |
| BroadcastQueue.TransmitFits | Godeps/_workspace/src/github.com/hashicorp/memberlist/queue.go:84-94 | The byte limit is kept, and nothing passed over would still have fitted. |
| BroadcastQueue.TransmitBounds | Godeps/_workspace/src/github.com/hashicorp/memberlist/queue.go:96-103 | What stays has been sent fewer times than the limit, what leaves at most that often. |
| BroadcastQueue.StillOnePerNode | Godeps/_workspace/src/github.com/hashicorp/memberlist/queue.go:71-112 | A round leaves at most one entry a node. |
| BroadcastQueue.RoundStep | Godeps/_workspace/src/github.com/hashicorp/memberlist/queue.go:84-104 | Going through the queue from the back while entries leave is the specified round. |
| BroadcastQueue.GatherPermuted | Godeps/_workspace/src/github.com/hashicorp/memberlist/queue.go:165-167 | Totals over the queue do not depend on its order. |
| BroadcastQueue.TransmitSpends | Godeps/_workspace/src/github.com/hashicorp/memberlist/queue.go:96-103 | Nothing leaves a round before its count has reached the limit. |
| BroadcastQueue.SentExactly | Godeps/_workspace/src/github.com/hashicorp/memberlist/queue.go:71-150 | While the limit is always L, a broadcast queued once has been sent exactly max(1, L) times if and only if it is finished and was not replaced, pruned or reset. |
| BroadcastQueue.SentAtMost | Godeps/_workspace/src/github.com/hashicorp/memberlist/queue.go:71-112 | In every reachable state a broadcast queued once has been sent at most max(1, L) times, and is either still queued or finished exactly once. |
| BroadcastQueue.TransmitLimitedQueue.constructor | Godeps/_workspace/src/github.com/hashicorp/memberlist/queue.go:13-29 | An empty queue. |
| BroadcastQueue.TransmitLimitedQueue.QueueBroadcast | Godeps/_workspace/src/github.com/hashicorp/memberlist/queue.go:49-67 | Replaces the entry about the same node, which is finished, and goes to the back with no transmits; keeps one entry a node, the latest, and the order. |
| BroadcastQueue.TransmitLimitedQueue.Invalidate | Godeps/_workspace/src/github.com/hashicorp/memberlist/queue.go:54-63 | The removing loop leaves what the stepping loop leaves. |
| BroadcastQueue.TransmitLimitedQueue.GetBroadcasts | Godeps/_workspace/src/github.com/hashicorp/memberlist/queue.go:71-112 | Sends exactly the specified round within the byte limit, finishes what was sent often enough, and sorts. |
| BroadcastQueue.TransmitLimitedQueue.SendRound | Godeps/_workspace/src/github.com/hashicorp/memberlist/queue.go:84-104 | One pass from the back, replacing what leaves by the last entry. |
| BroadcastQueue.TransmitLimitedQueue.Sort | Godeps/_workspace/src/github.com/hashicorp/memberlist/queue.go:153-167 | Descending transmit counts, the same entries. |
| BroadcastQueue.TransmitLimitedQueue.Reset | Godeps/_workspace/src/github.com/hashicorp/memberlist/queue.go:122-130 | Everything is finished, the queue empty. |
| BroadcastQueue.TransmitLimitedQueue.Prune | Godeps/_workspace/src/github.com/hashicorp/memberlist/queue.go:133-150 | The entries at the back stay, the others are finished; those dropped have at least as many transmits. |
| Datagram.MakeCompoundMessage | Godeps/_workspace/src/github.com/hashicorp/memberlist/util.go:192-215 | The header, the table of lengths and the messages, in order. |
| Datagram.DecodeCompoundMessage | Godeps/_workspace/src/github.com/hashicorp/memberlist/util.go:218-252 | Gives what the specification of decoding gives, with the table size computed in 8 bits; the error cases included. |
| Datagram.RoundTripExactly | Godeps/_workspace/src/github.com/hashicorp/memberlist/util.go:192-252 | Up to 255 messages below 64 KiB: they come back if and only if there are at most 127, or the bytes behind the wrongly skipped table happen to start with them. |
| Datagram.TooManyParts | Godeps/_workspace/src/github.com/hashicorp/memberlist/util.go:218-252 | With 128 parts or more, already the first byte usually shows it. |
| Datagram.Accounting | Godeps/_workspace/src/github.com/hashicorp/memberlist/util.go:239-251 | Parts returned and parts reported cut off add up to the count declared, and the parts are a prefix of the body. |
| Datagram.SplitExactly | Godeps/_workspace/src/github.com/hashicorp/memberlist/util.go:239-251 | Cutting lengths off a body gives messages back exactly when the body starts with them. |
| Datagram.EncryptionBounded | Godeps/_workspace/src/github.com/hashicorp/memberlist/security.go:59-83 | Padding included, encryption adds no more than the assumed overhead; for whole blocks of version 0 exactly that. |
| Datagram.GossipFits | Godeps/_workspace/src/github.com/hashicorp/memberlist/state.go:350-371 | Messages that fit the space left make a datagram of at most 1400 bytes, encrypted or not, compressed or not. |
| Datagram.FewParts | Godeps/_workspace/src/github.com/hashicorp/memberlist/broadcast.go:72-100 | Nine bytes a message are enough to stay below 128 parts. |
| Datagram.PiggybackSize | Godeps/_workspace/src/github.com/hashicorp/memberlist/net.go:549-556 | The size of a message packed with others: the header, its own table entry, and the others with theirs. |
| Datagram.PiggybackOverruns | Godeps/_workspace/src/github.com/hashicorp/memberlist/net.go:537-560 | Piggybacking counts no table entry for the message itself: a datagram with broadcasts in it is over 1400 bytes if and only if that entry no longer fits and the encryption is not the padding version 0; then by two bytes at most. |
| Datagram.TwoBytesTooMany | Godeps/_workspace/src/github.com/hashicorp/memberlist/net.go:537-560 | A thousand bytes and a broadcast of 396 make a datagram of 1402 bytes. |
| Datagram.SendMsg | Godeps/_workspace/src/github.com/hashicorp/memberlist/net.go:537-560 | The message alone if nothing goes along, else packed in front of the broadcasts; the datagram is over 1400 bytes exactly under that condition. |
| Datagram.GetBroadcasts | Godeps/_workspace/src/github.com/hashicorp/memberlist/broadcast.go:72-100 | Messages of the queue and of the delegate together keep the limit. |
| Datagram.Gossip | Godeps/_workspace/src/github.com/hashicorp/memberlist/state.go:341-376 | The datagram fits, and if each message has nine bytes it decodes to exactly the messages chosen. |
| Swim.StepRaises | Godeps/_workspace/src/github.com/hashicorp/memberlist/state.go:615-967 | For a node other than this one every message believed raises (incarnation, alive < suspect < dead) strictly, and nothing else touches its entry; only a dead node is forgotten. |
| Swim.RunRaises | Godeps/_workspace/src/github.com/hashicorp/memberlist/state.go:615-967 | Over any run the pair never falls while the node is in the table. |
| Swim.StepKnows | Godeps/_workspace/src/github.com/hashicorp/memberlist/state.go:615-967 | What a node believes of itself after any step. |
| Swim.RunKnows | Godeps/_workspace/src/github.com/hashicorp/memberlist/state.go:615-967 | In every reachable state it is never suspect to itself, dead only after leaving, and then for good. |
| Swim.ComesUp | Godeps/_workspace/src/github.com/hashicorp/memberlist/memberlist.go:228-324 | The announcement at the start establishes this. |
| Swim.ClaimIsRefuted | Godeps/_workspace/src/github.com/hashicorp/memberlist/state.go:701-940 | Every suspicion or death claim that counts against a node that is not leaving makes it broadcast an alive that any peer holding the claim accepts and is alive to it again. |
| Swim.StaleForEver | Godeps/_workspace/src/github.com/hashicorp/memberlist/state.go:615-967 | A word older than what was known of a node at some time of a run changes nothing and is not passed on at any later time, as long as the node is not forgotten. |
| Swim.StandingExactly | Godeps/_workspace/src/github.com/hashicorp/memberlist/state.go:615-967 | For every step: a remote node is alive after it if and only if the step vouches for it, or it was alive and the step neither accuses nor buries it; it is suspect if and only if it was alive and is accused, or was suspect and is neither vouched for nor buried. |
| Swim.SuspicionCounts | Godeps/_workspace/src/github.com/hashicorp/memberlist/state.go:797-851 | A node held alive becomes suspect under the incarnation of the suspicion, and the suspicion is passed on, if and only if it is not older than the incarnation held. |
| Swim.DeathCounts | Godeps/_workspace/src/github.com/hashicorp/memberlist/state.go:876-940 | The same for a death. |
| Swim.SuspectDies | Godeps/_workspace/src/github.com/hashicorp/memberlist/state.go:844-873 | Failure detection is complete: a node suspected while it was held alive, of which no newer word is heard, is dead or forgotten as dead once the timer set then fires, and if it was still suspect its death is passed on under the incarnation suspected. |
| Swim.VouchedLives | Godeps/_workspace/src/github.com/hashicorp/memberlist/state.go:701-794 | A newer word keeps the node alive: the timer no longer fits. |
| Swim.LeaveDies | Godeps/_workspace/src/github.com/hashicorp/memberlist/memberlist.go:475-518 | The death message of leaving makes the node dead to itself if and only if its incarnation was not raised in between. |
| Swim.LeaveCanFail | Godeps/_workspace/src/github.com/hashicorp/memberlist/memberlist.go:475-518 | A suspicion heard between the two halves of leaving raises it, and the node stays alive. |
| Swim.OrderMattersExactly | Godeps/_workspace/src/github.com/hashicorp/memberlist/state.go:797-940 | Two members that hear the same suspicion and death of a living node in different orders agree, unless the death is not stale but older than the suspicion: then one holds it suspect, the other dead. |
| Swim.AliveAgrees | Godeps/_workspace/src/github.com/hashicorp/memberlist/state.go:701-780 | A newer word of the node itself brings any two members to the same opinion. |
| SwimCluster.StaysHonest | Godeps/_workspace/src/github.com/hashicorp/memberlist/state.go:615-967 | Every step of every member keeps this: nobody says or believes an incarnation of a member that it has not claimed itself. |
| SwimCluster.ComingUpStaysHonest | Godeps/_workspace/src/github.com/hashicorp/memberlist/memberlist.go:228-324 | A member that comes up keeps it, for the first time or again under its old name, counting from one while its former words are still about. |
| SwimCluster.SharingStaysHonest | Godeps/_workspace/src/github.com/hashicorp/memberlist/net.go:696-755 | Handing over the table keeps it. |
| SwimCluster.HistoryHonest | Godeps/_workspace/src/github.com/hashicorp/memberlist/state.go:615-967 | Whole histories of the cluster, messages late, twice or never. |
| SwimCluster.FirstLifeIsCaughtUp | Godeps/_workspace/src/github.com/hashicorp/memberlist/memberlist.go:228-324 | A member in its first life counts as far as anything said of it. |
| SwimCluster.StaysCaughtUp | Godeps/_workspace/src/github.com/hashicorp/memberlist/state.go:615-967 | And so it does until it comes up again. |
| SwimCluster.AnswerIsNext | Godeps/_workspace/src/github.com/hashicorp/memberlist/state.go:738-760 | A refutation counts above the claim and no further than one above what was ever claimed; if the member is caught up, exactly one further, so that the loop is there for members that came up again. |
| SwimCluster.OldClaimsAreVoid | Godeps/_workspace/src/github.com/hashicorp/memberlist/state.go:738-760 | After an answer no claim up to the one answered counts against the member; and none sent before at all, if it was caught up or the claim was the highest. |
| Memberlist.Memberlist.constructor | Godeps/_workspace/src/github.com/hashicorp/memberlist/memberlist.go:61-130 | An empty table. |
| Memberlist.Memberlist.NextIncarnation | Godeps/_workspace/src/github.com/hashicorp/memberlist/state.go:538-540 | The next 32-bit incarnation. |
| Memberlist.Memberlist.HigherThan | Godeps/_workspace/src/github.com/hashicorp/memberlist/state.go:743-748 | The loop ends at the first incarnation above the claim. |
| Memberlist.Memberlist.RefuteClaim | Godeps/_workspace/src/github.com/hashicorp/memberlist/state.go:817-838 | Raises the own incarnation above the claim and broadcasts it. |
| Memberlist.Memberlist.AddNode | Godeps/_workspace/src/github.com/hashicorp/memberlist/state.go:654-681 | A new node goes to a random place of the list; list, map and count stay in step. |
| Memberlist.Memberlist.AliveNode | Godeps/_workspace/src/github.com/hashicorp/memberlist/state.go:615-794 | The table, the counter and the messages said become those the alive rules give: newcomers enter, stale words are dropped, a word about this node is refuted, any other accepted and passed on. |
| Memberlist.Memberlist.SuspectNode | Godeps/_workspace/src/github.com/hashicorp/memberlist/state.go:797-864 | Likewise for suspicions: stale ones and those of nodes not alive are dropped, one about this node is refuted. |
| Memberlist.Memberlist.SuspectTimeout | Godeps/_workspace/src/github.com/hashicorp/memberlist/state.go:867-873 | A node still suspect since that time is declared dead, and nothing else happens. |
| Memberlist.Memberlist.DeadNode | Godeps/_workspace/src/github.com/hashicorp/memberlist/state.go:876-941 | Likewise for deaths: a claim about this node is refuted unless it is leaving. |
| Memberlist.Memberlist.MergeRemote | Godeps/_workspace/src/github.com/hashicorp/memberlist/state.go:946-966 | One line of a remote table. |
| Memberlist.Memberlist.MergeState | Godeps/_workspace/src/github.com/hashicorp/memberlist/state.go:944-967 | A whole remote table. |
| Memberlist.Memberlist.Announce | Godeps/_workspace/src/github.com/hashicorp/memberlist/memberlist.go:228-324 | The node says that it is there, under a new incarnation. |
| Memberlist.Memberlist.Leave | Godeps/_workspace/src/github.com/hashicorp/memberlist/memberlist.go:475-518 | Undisturbed, leaving makes the node dead in its own eyes. |
| Memberlist.Memberlist.MoveDeadNodes | Godeps/_workspace/src/github.com/hashicorp/memberlist/util.go:135-149 | Partitions the list in place: the dead last. |
| Memberlist.Memberlist.ShuffleNodes | Godeps/_workspace/src/github.com/hashicorp/memberlist/util.go:112-118 | The same nodes in another order. |
| Memberlist.Memberlist.ResetNodes | Godeps/_workspace/src/github.com/hashicorp/memberlist/state.go:316-337 | The dead are forgotten, from the list and from the map; list and map stay in step. |
| Memberlist.Memberlist.Wrap | Godeps/_workspace/src/github.com/hashicorp/memberlist/state.go:176-180 | The round that ends is put on record with its nodes and probes: if none joined in it, each node but this one that was at no time dead in it was probed exactly once, and none twice. The dead are forgotten, and the next round starts empty. |
| Memberlist.Memberlist.StartRound | Godeps/_workspace/src/github.com/hashicorp/memberlist/state.go:316-337 | From the front again, with nothing probed. |
| Memberlist.Memberlist.Advance | Godeps/_workspace/src/github.com/hashicorp/memberlist/state.go:182-203 | One node further, on record as probed or passed over; only this node and dead ones may be passed over. |
| Memberlist.Memberlist.Probe | Godeps/_workspace/src/github.com/hashicorp/memberlist/state.go:164-206 | Always ends, with a node that is neither dead nor this one, or none. That node is added to the probes of the round; if the round ended in the call, what is on record as its probes are those made before, and the node is the first of the next. |
| ProtocolVersions.CommonRange | Godeps/_workspace/src/github.com/hashicorp/memberlist/state.go:425-498 | The range kept while looking at all living nodes stands for the ranges of all of them. |
| ProtocolVersions.VerifyProtocol | Godeps/_workspace/src/github.com/hashicorp/memberlist/state.go:425-530 | Passes if and only if every node here and there speaks protocol and delegate versions that every living node with versions understands. |
| SklReader.Ring.Curr | skl/scanner.go:57-60 | The last thing read and not pushed back. |
| SklReader.Ring.Reread | skl/scanner.go:40-44 | What was pushed back comes again. |
| SklReader.Ring.Put | skl/scanner.go:46-51 | Something new is remembered in place of the oldest. |
| SklReader.Reader.Read | Godeps/_workspace/src/github.com/eliquious/lexer/reader.go:38-80 | Character and position are those of an unbounded cursor over the normalised input, also after pushing back, and also behind the end. |
| SklReader.Reader.Fetch | Godeps/_workspace/src/github.com/eliquious/lexer/reader.go:50-62 | A carriage return, alone or with a line feed, counts as one line feed. |
| SklReader.Reader.Unread | Godeps/_workspace/src/github.com/eliquious/lexer/reader.go:83-85 | The cursor goes back by one. |
| SklReader.Reader.Curr | Godeps/_workspace/src/github.com/eliquious/lexer/reader.go:88-92 | The last character and its position. |
| SklLexer.NumeralIsWhole | Godeps/_workspace/src/github.com/eliquious/lexer/scanner.go:234-302 | A number or a duration, with sign, fraction or unit, is scanned whole. |
| SklLexer.WhitespaceIsAll | Godeps/_workspace/src/github.com/eliquious/lexer/scanner.go:157-177 | However many blanks there are, they are one token. |
| SklLexer.Scanner.ScanWhitespace | Godeps/_workspace/src/github.com/eliquious/lexer/scanner.go:157-177 | All whitespace, and the end of the input if it follows. |
| SklLexer.Scanner.ScanBareIdent | Godeps/_workspace/src/github.com/eliquious/lexer/utils.go:127-143 | All identifier characters from here on. |
| SklLexer.Scanner.ScanText | Godeps/_workspace/src/github.com/eliquious/lexer/utils.go:92-123 | The text up to the same quote, with its escapes. |
| SklLexer.Scanner.ScanIdent | Godeps/_workspace/src/github.com/eliquious/lexer/scanner.go:180-211 | Bare pieces make an identifier or a keyword; a quoted text behind them replaces them. |
| SklLexer.Scanner.ScanString | Godeps/_workspace/src/github.com/eliquious/lexer/scanner.go:215-231 | A quoted text, or where it goes wrong. |
| SklLexer.Scanner.ScanDigits | Godeps/_workspace/src/github.com/eliquious/lexer/scanner.go:306-317 | All digits from here on. |
| SklLexer.Scanner.ScanNumber | Godeps/_workspace/src/github.com/eliquious/lexer/scanner.go:234-302 | Sign, digits, a fraction or a unit; a sign or full stop alone is something else. |
| SklLexer.Scanner.Scan | Godeps/_workspace/src/github.com/eliquious/lexer/scanner.go:26-131 | Every call gives the token the specification puts at the cursor, its text and its position, and leaves the cursor behind it. |
| SklLexer.Scanner.ScanOp | Godeps/_workspace/src/github.com/eliquious/lexer/scanner.go:60-131 | Punctuation, one character or two. |
| SklParser.BufScanner.Scan | skl/scanner.go:28-51 | The token ring is an unbounded cursor over the tokens of the text. |
| SklParser.BufScanner.Unscan | skl/scanner.go:54-54 | The cursor goes back by one token. |
| SklParser.Parser.constructor | skl/parser.go:26-28 | Starts at the first token. |
| SklParser.Parser.ScanIgnoreWhitespace | skl/parser.go:261-267 | The next token, or the one behind it if it is whitespace. |
| SklParser.Parser.ParseNamespace | skl/parser.go:141-173 | Identifiers and full stops in any order, not ending in a full stop; the error otherwise. |
| SklParser.Parser.ParseStatement | skl/parser.go:36-139 | The statement of the specification, or its error with what was found, what was expected and where. |
| SklRoundTrip.RoundTripExactly | skl/ast.go:50-130 | Parsing what a statement prints gives that statement back if and only if its name is made of bare identifiers that are no keywords, and full stops, with an identifier first and last. |
| SklRoundTrip.NameReturns | skl/parser.go:141-173 | The same for a name behind any prefix that ends in a blank. |
| SklRoundTrip.NameExactly | skl/parser.go:141-173 | A name as long as the rest of the text can only be the rest of the text. |
| SklRoundTrip.NameShrinks | skl/parser.go:141-173 | No name is longer than what it was read from. |
| SklRoundTrip.IdentExact | Godeps/_workspace/src/github.com/eliquious/lexer/scanner.go:180-211 | An identifier is as long as its source only if it is one bare piece. |
| SklRoundTrip.PrintAndParse | skl/ast.go:50-130 | The same through the parser, its token ring, the lexer and the character ring. |
| CommaLists.SplitJoin | datamodel/namespaces.go:331-395 | Splitting a joined list of comma-free names gives the list back. |
| CommaLists.SplitAppends | datamodel/namespaces.go:347-355 | Splitting what was appended gives both lists, one behind the other. |
| CommaLists.AppendsExactly | datamodel/namespaces.go:347-355 | Appending adds exactly the names given if and only if none of them holds a comma. |
| CommaLists.RemovesExactly | datamodel/namespaces.go:378-391 | Removing takes away exactly the one name. |
| CommaLists.AppendThenRemove | datamodel/namespaces.go:331-395 | Removing a name just appended leaves what was there, less that name. |
| Namespaces.PermitsExactly | datamodel/namespaces.go:397-426 | Asking the string answers what the set of permissions says. |
| Namespaces.GrantsExactly | datamodel/namespaces.go:331-359 | Granting gives exactly the permissions named if and only if none holds a comma. |
| Namespaces.GrantsNobody | datamodel/namespaces.go:347-355 | A role without a name never gets anything. |
| Namespaces.RevokesExactly | datamodel/namespaces.go:362-395 | Revoking takes away exactly that permission of that role. |
| Namespaces.RolesComeAndGo | datamodel/namespaces.go:255-302 | A new role has no rights; a removed one takes its own with it. |
| Namespaces.UsersGiveNoRights | datamodel/namespaces.go:197-252 | Users do not touch rights. |
| Namespaces.RightsOfTheNew | datamodel/namespaces.go:80-90 | A new namespace starts without rights. |
| Namespaces.RightsOfTheChild | datamodel/namespaces.go:428-462 | A child starts with the rights of its parent at that moment. |
| Namespaces.ChildUsersExactly | datamodel/namespaces.go:50-52 | The interface promises the same users; a new child has them if and only if the parent has none or its whole list reads "users". |
| Namespaces.NamespaceStore.Create | datamodel/namespaces.go:80-90 | A fresh bucket, or the one there is; no name, no bucket. |
| Namespaces.NamespaceStore.Delete | datamodel/namespaces.go:131-139 | The bucket is gone, the others stay; a bucket that is missing is the error of bolt. |
| Namespaces.NamespaceStore.AddRole | datamodel/namespaces.go:255-278 | A role that is missing gets an empty list, one that is there keeps its own; the error for a missing namespace. |
| Namespaces.NamespaceStore.RemoveRole | datamodel/namespaces.go:281-302 | The role goes with its list, the others stay. |
| Namespaces.NamespaceStore.GrantPermissions | datamodel/namespaces.go:331-359 | The names go behind those the role has, separated by commas; nothing else changes. |
| Namespaces.NamespaceStore.RevokePermission | datamodel/namespaces.go:362-395 | The list of the role is rebuilt without the permission; nothing else changes. |
| Namespaces.NamespaceStore.HasPermission | datamodel/namespaces.go:397-426 | Whether the permission is one of the names between the commas of the list. |
| Namespaces.NamespaceStore.AddUser | datamodel/namespaces.go:197-220 | The user goes behind those there are. |
| Namespaces.NamespaceStore.RemoveUser | datamodel/namespaces.go:223-252 | The list is rebuilt without the user. |
| Namespaces.NamespaceStore.HasAccess | datamodel/namespaces.go:149-173 | Whether the user is one of the names between the commas. |
| Namespaces.NamespaceStore.CreateChild | datamodel/namespaces.go:428-473 | Every role is copied with its list; the list of users goes under itself as the key. |
| Namespaces.NamespaceStore.CopyRoles | datamodel/namespaces.go:459-462 | Every role of the parent, and the others as they were. |
| Namespaces.NamespaceStore.Filter | datamodel/namespaces.go:382-387 | The list without the item, order kept. |
| Namespaces.NamespaceStore.Find | datamodel/namespaces.go:415-420 | Whether the item is in the list. |
| Executor.LastIndex | executor/executor.go:150-151 | The place of the last dot. |
| Executor.Executor.Execute | executor/executor.go:35-51 | Response, session namespace and store after every statement; statements without a handler change nothing and answer nothing. |
| Executor.Executor.HandleUse | executor/executor.go:53-105 | The session moves if and only if the namespace exists and the user is the admin or has it. |
| Executor.Executor.HandleCreate | executor/executor.go:112-206 | The namespace is made if and only if the user may, with the error of the branch otherwise. |
| Executor.Executor.HandleCreateRoot | executor/executor.go:254-289 | Roots are for the admin. |
| Executor.Executor.AnyRoleAllows | executor/executor.go:172-177 | Whether a role of the user gives the permission in the parent. |
| NamespaceRuns.RunRefines | executor/executor.go:112-289 | In every run from the empty store, grants without commas, the strings stand for the role-to-permission-set map that ordinary set operations give. |
| NamespaceRuns.StepRefines | executor/executor.go:112-289 | One step on the strings is the same step on the sets. |
| NamespaceRuns.RunClosed | executor/executor.go:112-206 | In every run every namespace but a root has its parent. |
| NamespaceRuns.NothingVanishes | executor/executor.go:35-51 | No step of a run takes a namespace away. |
| NamespaceRuns.Provenance | executor/executor.go:107-206 | A namespace is there if and only if some step made it for a user who then was allowed to: the admin, or below an existing parent someone whose role there could create. |
| NamespaceRuns.SomebodyMadeIt | executor/executor.go:107-206 | One direction, with the step. |
| NamespaceRuns.MadeIsThere | executor/executor.go:107-206 | The other. |
| NamespaceRuns.MadeOnce | executor/executor.go:133-137 | Only one step made it. |
| NamespaceRuns.UnderARoot | executor/executor.go:107-111 | Every namespace stands below a root with a name, made by the admin. |
| NamespaceRuns.DeletesExactly | datamodel/namespaces.go:131-139 | Deleting keeps every parent in place if and only if the namespace has no child. |
| NamespaceGrants.StandsExactly | executor/executor.go:172-183 | After any run a role has a permission in a namespace if and only if the history says so: it was granted there, or the namespace got it from its parent when it was made, and nothing took it back since. |
| NamespaceGrants.CreatesExactly | executor/executor.go:107-206 | After any run `CREATE NAMESPACE` makes a namespace that is not there if and only if the user is the admin, or the parent is there and a grant of create.namespace to one of the user's roles in the parent stands; the admin too needs the parent, and a root a name. |
| NamespaceGrants.CreationNeedsGrant | executor/executor.go:172-183 | Whoever is not the admin and makes a namespace was granted create.namespace before, for one of the roles he has in the parent, there or in a namespace above it. |
| NamespaceGrants.GrantBehind | datamodel/namespaces.go:331-360 | What stands was once granted, in the namespace or in one above it. |
| NamespaceGrants.AdminMadeAll | executor/executor.go:107-206 | Where create.namespace was never granted, the admin made every namespace. |
| NamespaceGrants.ResponseTells | executor/executor.go:112-206 | The response tells what became of the store. |
| NamespaceGrants.SessionExactly | executor/executor.go:53-105 | The namespace of a session is the one the last `USE` named that was let through: of a namespace that was there, by the admin or by a user who has it. |
| Tombs.RunExactly | Godeps/_workspace/src/gopkg.in/tomb.v2/tomb.go:139-200 | Every run that does not panic ends in the state read off its history alone: count of goroutines, dying, dead exactly when all that were started have returned, and the first real error or nil as the reason. |
| Tombs.PanicsExactly | Godeps/_workspace/src/gopkg.in/tomb.v2/tomb.go:139-200 | The next step panics if and only if it starts a goroutine after all have returned, or gives ErrStillAlive, or gives ErrDying to a tomb that is not dying. |
| Tombs.ClosesOnce | Godeps/_workspace/src/gopkg.in/tomb.v2/tomb.go:152-200 | No run closes a channel twice. |
| Tombs.OnlyForward | Godeps/_workspace/src/gopkg.in/tomb.v2/tomb.go:139-200 | Dying and dead stay; dead implies dying and nothing running; a real reason is never replaced. |
| Tombs.KilledEmptyNeverDies | Godeps/_workspace/src/gopkg.in/tomb.v2/tomb.go:98-121 | A tomb that never started a goroutine never dies, so waiting for it does not end. |
| Tombs.Tomb.constructor | Godeps/_workspace/src/gopkg.in/tomb.v2/tomb.go:75-96 | The zero value is ready for use. |
| Tombs.Tomb.Init | Godeps/_workspace/src/gopkg.in/tomb.v2/tomb.go:88-96 | Makes the channels once. |
| Tombs.Tomb.Go | Godeps/_workspace/src/gopkg.in/tomb.v2/tomb.go:139-150 | One goroutine more, or the panic. |
| Tombs.Tomb.Finish | Godeps/_workspace/src/gopkg.in/tomb.v2/tomb.go:152-163 | One goroutine less, and what that leads to. |
| Tombs.Tomb.Kill | Godeps/_workspace/src/gopkg.in/tomb.v2/tomb.go:174-179 | The first real error becomes the reason, dying is closed once; a misuse panics and changes nothing. |
| Tombs.Tomb.KillLocked | Godeps/_workspace/src/gopkg.in/tomb.v2/tomb.go:181-200 | The same, for callers that hold the lock. |
| Tombs.Tomb.Err | Godeps/_workspace/src/gopkg.in/tomb.v2/tomb.go:212-218 | The reason. |

## Left out

- YAML event marks, comments and the styles of scalars: they do not influence which events come.
- YAML plain, single-quoted, literal and folded scalars, tag URIs and `%TAG` scanning: the token scanner takes lexemes, with their places in the text, as its input.
- YAML UTF-16 input and output: the reader advances its output by the width of the raw input there.
- YAML readers that deliver no bytes and no error, for ever: the model takes them for ended.
- YamlLanguage.SentencesExactly: says nothing of the runs in which a token is consumed wrongly for a missing single-pair key and the parser comes to the end all the same, as on `[?]]` (SecondBracketMakesUp); what is emitted then is still a stream word.
- YamlExactly.ParsedExactly: is about the sentences of the grammar; YamlLanguage.SentencesExactly is about all tokens.
- YamlDocumentLayout.LaidOutIsSpelled: a layout gives `?` or a key node to every entry of a block mapping, and its simple keys are on one line, as the library demands; a VALUE without a key is scanned too, but no parser takes it.
- YamlParser.Parser.Run: leaves the tokens arbitrary; that the scanner's tokens begin and end rightly is YamlLookahead.TokenisedSeals.
- The offsets inside YAML error messages.
- Reflection-based decoding and encoding, merges and the resolution of plain scalars.
- WrapWords.Wrap: does not model 64-bit overflow of squared slack, and states the result where some breaking whose last line fits costs less than the sentinel; otherwise the code does not return.
- BroadcastQueue.TransmitLimitedQueue.GetBroadcasts: takes the retransmit limit as a parameter, because its logarithm is floating point; the bound L is any bound on the limits used.
- BroadcastQueue.TransmitLimitedQueue.Sort: stands for the library's sort, with equal entries in no particular order.
- Datagram.RoundTripExactly: leaves out 256 messages and more, where the count itself wraps, and messages of 64 KiB and more.
- Datagram: compression and encryption are known changes of length; a slice that reads into spare capacity is a result of its own.
- Swim and Memberlist.Memberlist: incarnations stay below the largest 32-bit number, beyond which the loops that raise them do not end; the suspicion timer's check and the death it leads to are one step, though the code drops the lock between them.
- Memberlist.Memberlist.AliveNode: the delegates that filter, and those that are told, are a Boolean and nothing.
- Probing over the network, acknowledgements, push and pull transport, compound and user messages on the wire, serf.
- SklLexer.Scanner.Scan: regular expressions and the parsers of numbers, which no statement of the language uses.
- Executor.Executor.Execute: what SHOW NAMESPACES writes; failures of the store itself.
- Namespaces.NamespaceStore: a bucket always has its bucket of roles, which the code makes on the first look; limits on the length of keys; two transactions in between one statement's own.
- Users, keys and passwords; the roles and namespaces of a user are given with each statement.
- Tombs.Tomb: the state after a panic that somebody recovers from, except that Kill leaves it unchanged; blocking in Wait.
- TOML, properties, namedtuple and xbinary encodings, commands, certificates, terminals and servers.
