/** The scanner's token queue and the fetchers that fill it. */
module YamlTokenScanner {
  import opened YamlTokens
  import opened YamlKeys
  import opened YamlKeysInvariant
  import opened YamlLookahead

  class Scanner {
    /** What the characters of the input are taken for, one fetch after the other. */
    const lexemes: seq<Lexeme>
    var next: nat

    /** The queue: a stretch of a buffer that grows and is compacted in place. */
    var tokens: array<Token>
    var tokensHead: nat
    var tokensLen: nat
    var tokensParsed: nat
    var tokenAvailable: bool

    var simpleKeys: seq<SimpleKey>
    var simpleKeyAllowed: bool
    var flowLevel: nat
    var indent: int
    var indents: seq<int>
    var mark: Mark
    var streamStartProduced: bool
    var streamEndProduced: bool
    var panicked: bool

    /** Tokens handed out. */
    ghost var delivered: seq<Token>
    ghost var openLine: nat
    ghost var resumed: bool

    constructor (start: Mark, lexemes: seq<Lexeme>)
      ensures Valid() && fresh(tokens) && this.lexemes == lexemes && next == 0 && mark == start
      ensures !streamStartProduced && !streamEndProduced && !panicked && !tokenAvailable
      ensures delivered == [] && Queued() == [] && simpleKeys == [] && flowLevel == 0 && indents == []
      ensures openLine == 0 && !resumed
    {
      this.lexemes, next := lexemes, 0;
      tokens := new Token[16];
      tokensHead, tokensLen, tokensParsed, tokenAvailable := 0, 0, 0, false;
      simpleKeys, simpleKeyAllowed, flowLevel, indent, indents := [], false, 0, 0, [];
      mark, streamStartProduced, streamEndProduced, panicked := start, false, false, false;
      delivered, openLine, resumed := [], 0, false;
    }

    ghost predicate Valid()
      reads this`tokens, this`tokensHead, this`tokensLen, this`tokensParsed, this`delivered
    {
      tokensHead <= tokensLen <= tokens.Length && tokensParsed == |delivered|
    }

    ghost function Queued(): (q: seq<Token>)
      requires Valid()
      reads this`tokens, this`tokensHead, this`tokensLen, this`tokensParsed, this`delivered, tokens
      ensures |q| == tokensLen - tokensHead
    {
      tokens[tokensHead..tokensLen]
    }

    /** The scanner's state, with the tokens numbered from the start of the stream. */
    ghost function View(): (s: Scan)
      requires Valid()
      reads this`tokens, this`tokensHead, this`tokensLen, this`tokensParsed, this`delivered, this`simpleKeys,
            this`simpleKeyAllowed,
        this`flowLevel, this`indent, this`indents, this`mark, this`openLine, this`resumed, tokens
      ensures s.mark == mark
    {
      Scan(delivered + Queued(), simpleKeys, simpleKeyAllowed, flowLevel, indent, indents, mark, openLine, resumed)
    }

    /** A step did what the specification says. */
    ghost predicate Did(r: Result, ok: bool)
      requires Valid()
      reads this, tokens
    {
      match r
      case Good(s) => ok && View() == s && !panicked
      case Failure => !ok && !panicked
      case Panic => !ok && panicked
    }

    // -------------------------------------------------------- the queue

    /** Put a token at position `pos` of the queue, or at its end if `pos` is negative. */
    method InsertToken(pos: int, token: Token)
      requires Valid() && pos <= |Queued()|
      modifies this`tokens, this`tokensHead, this`tokensLen, tokens
      ensures Valid() && (tokens == old(tokens) || fresh(tokens))
      ensures Queued() == if pos < 0 then old(Queued()) + [token] else Insert(old(Queued()), pos, token)
    {
      ghost var q := Queued();
      if tokensHead > 0 && tokensLen == tokens.Length {
        Compact();
      }
      Append(token);
      if pos < 0 { return; }
      MoveUp(tokensHead + pos, token);
      IsInserted(q, Queued(), pos, token);
    }

    /** Shift the tokens from buffer position `p` on, over the last one. */
    method MoveUp(p: nat, token: Token)
      requires Valid() && tokensHead <= p < tokensLen
      modifies tokens
      ensures |Queued()| == |old(Queued())| && Queued()[p - tokensHead] == token
      ensures forall i | 0 <= i < p - tokensHead :: Queued()[i] == old(Queued())[i]
      ensures forall i | p - tokensHead < i < |Queued()| :: Queued()[i] == old(Queued())[i - 1]
    {
      forall i | p + 1 <= i < tokensLen {
        tokens[i] := tokens[i - 1];
      }
      tokens[p] := token;
    }

    /** Move the queue to the start of the buffer. */
    method Compact()
      requires Valid()
      modifies this`tokensHead, this`tokensLen, tokens
      ensures Valid() && Queued() == old(Queued()) && tokensHead == 0
    {
      ghost var q := Queued();
      if tokensHead != tokensLen {
        forall i | 0 <= i < tokensLen - tokensHead {
          tokens[i] := tokens[tokensHead + i];
        }
      }
      tokensLen, tokensHead := tokensLen - tokensHead, 0;
      assert Queued() == q;
    }

    /** Go's append: a larger buffer when this one is full. */
    method Append(token: Token)
      requires Valid()
      modifies this`tokens, this`tokensLen, tokens
      ensures Valid() && (tokens == old(tokens) || fresh(tokens))
      ensures Queued() == old(Queued()) + [token]
    {
      ghost var q := Queued();
      if tokensLen == tokens.Length {
        var larger := new Token[2 * tokensLen + 1];
        forall i | 0 <= i < tokensLen {
          larger[i] := tokens[i];
        }
        tokens := larger;
        assert Queued() == q;
      }
      tokens[tokensLen] := token;
      tokensLen := tokensLen + 1;
      assert Queued() == q + [token];
    }

    method PushToken(k: TokenKind, start: Mark, end: Mark)
      requires Valid()
      modifies this`tokens, this`tokensHead, this`tokensLen, tokens
      ensures Valid() && (tokens == old(tokens) || fresh(tokens))
      ensures View() == Push(old(View()), k, start, end)
    {
      InsertToken(-1, Token(k, start, end));
      assert delivered + (old(Queued()) + [Token(k, start, end)]) == delivered + old(Queued()) + [Token(k, start, end)];
    }

    /** Put a token in front of token `number` of the stream, which must not be handed out yet. */
    method InsertNumbered(number: nat, k: TokenKind, at: Mark)
      requires Valid() && tokensParsed <= number <= |View().tokens|
      modifies this`tokens, this`tokensHead, this`tokensLen, tokens
      ensures Valid() && (tokens == old(tokens) || fresh(tokens))
      ensures View() == InsertAt(old(View()), number, k, at)
    {
      InsertToken(number - tokensParsed, Token(k, at, at));
      InsertBehind(delivered, old(Queued()), number, Token(k, at, at));
    }

    // ------------------------------------------------------ simple keys

    method StaleSimpleKeys() returns (ok: bool)
      requires Valid() && !panicked
      modifies this`simpleKeys
      ensures Did(StaleKeys(old(View())), ok)
    {
      for i := 0 to |simpleKeys|
        invariant |simpleKeys| == |old(simpleKeys)|
        invariant forall k | 0 <= k < i :: simpleKeys[k] == DropIfStale(old(simpleKeys)[k], mark)
        invariant forall k | i <= k < |simpleKeys| :: simpleKeys[k] == old(simpleKeys)[k]
        invariant forall k | 0 <= k < i :: !(IsStale(old(simpleKeys)[k], mark) && old(simpleKeys)[k].required)
      {
        var key := simpleKeys[i];
        if key.possible && (key.mark.line < mark.line || key.mark.index + 1024 < mark.index) {
          if key.required {
            assert MissesValue(old(simpleKeys), mark) by { assert IsStale(old(simpleKeys)[i], mark); }
            return false;
          }
          simpleKeys := simpleKeys[i := key.(possible := false)];
        }
      }
      assert simpleKeys == Fresh(old(simpleKeys), mark);
      ok := true;
    }

    method RemoveSimpleKey() returns (ok: bool)
      requires Valid() && !panicked && simpleKeys != []
      modifies this`simpleKeys
      ensures Did(RemoveKey(old(View())), ok)
    {
      var i := |simpleKeys| - 1;
      if simpleKeys[i].possible {
        if simpleKeys[i].required { return false; }
      }
      simpleKeys := simpleKeys[i := simpleKeys[i].(possible := false)];
      ok := true;
    }

    method SaveSimpleKey() returns (ok: bool)
      requires Valid() && !panicked && simpleKeys != []
      modifies this`simpleKeys, this`panicked
      ensures Did(SaveKey(old(View())), ok)
    {
      var required := flowLevel == 0 && indent == mark.column;
      if required && !simpleKeyAllowed {
        panicked := true;
        return false;
      }
      if simpleKeyAllowed {
        var key := SimpleKey(true, required, tokensParsed + (tokensLen - tokensHead), mark);
        ok := RemoveSimpleKey();
        if !ok { return; }
        simpleKeys := simpleKeys[|simpleKeys| - 1 := key];
      }
      ok := true;
    }

    // ------------------------------------------------------ indentation

    /** `number` is -1 for the end of the queue. */
    method RollIndent(column: nat, number: int, k: TokenKind, at: Mark)
      requires Valid() && (number == -1 || tokensParsed <= number <= |View().tokens|)
      modifies this`tokens, this`tokensHead, this`tokensLen, this`indent, this`indents, tokens
      ensures Valid() && (tokens == old(tokens) || fresh(tokens))
      ensures View() == Roll(old(View()), column, if number == -1 then |old(View()).tokens| else number, k, at)
    {
      hide Queued, Insert;
      if flowLevel > 0 { return; }
      if indent < column {
        indents := indents + [indent];
        indent := column;
        if number > -1 {
          InsertNumbered(number, k, at);
        } else {
          PushToken(k, at, at);
          InsertLast(old(View()).tokens, Token(k, at, at));
        }
      }
    }

    method UnrollIndent(column: int)
      requires Valid() && Levels(indents, indent) && column >= -1
      modifies this`tokens, this`tokensHead, this`tokensLen, this`indent, this`indents, tokens
      ensures Valid() && (tokens == old(tokens) || fresh(tokens))
      ensures View() == Unroll(old(View()), column)
    {
      hide Queued;
      if flowLevel > 0 { return; }
      while indent > column
        invariant Valid() && (tokens == old(tokens) || fresh(tokens)) && Levels(indents, indent)
        invariant Unroll(View(), column) == Unroll(old(View()), column)
        decreases |indents|
      {
        ghost var s := View();
        CloseLevel();
        UnrollOne(s, column);
      }
    }

    method CloseLevel()
      requires Valid() && indents != []
      modifies this`tokens, this`tokensHead, this`tokensLen, this`indent, this`indents, tokens
      ensures Valid() && (tokens == old(tokens) || fresh(tokens))
      ensures |indents| < |old(indents)| && View() == Lower(old(View()))
    {
      hide Queued;
      PushToken(BlockEndToken, mark, mark);
      indent := indents[|indents| - 1];
      indents := indents[..|indents| - 1];
    }

    // --------------------------------------------------------- fetchers

    /** Scan the lexeme's characters and append its token. */
    method Consume(k: TokenKind, l: Lexeme, allowed: bool) returns (ok: bool)
      requires Valid() && !panicked
      modifies this`tokens, this`tokensHead, this`tokensLen, this`simpleKeyAllowed, this`mark, this`resumed, tokens
      ensures Valid() && (tokens == old(tokens) || fresh(tokens))
      ensures Did(Take(old(View()), k, l, allowed), ok)
    {
      hide Queued, View;
      if !l.scans {
        simpleKeyAllowed := allowed;
        return false;
      }
      Advance(l, allowed);
      PushToken(k, l.start, l.end);
      ok := true;
    }

    /** The scanner stands behind the lexeme. */
    method Advance(l: Lexeme, allowed: bool)
      requires Valid()
      modifies this`simpleKeyAllowed, this`mark, this`resumed
      ensures View() == old(View()).(mark := l.after, allowed := allowed,
                                     resumed := old(View()).level == 0 && !allowed && l.start.line < l.after.line)
    {
      hide Queued;
      simpleKeyAllowed := allowed;
      mark := l.after;
      resumed := flowLevel == 0 && !allowed && l.start.line < l.after.line;
    }

    method FetchStreamStart()
      requires Valid() && !panicked && tokensParsed == 0 && Queued() == [] && simpleKeys == [] && flowLevel == 0 && indents == []
      requires openLine == 0 && !resumed
      modifies this`tokens, this`tokensHead, this`tokensLen, this`indent, this`simpleKeys, this`simpleKeyAllowed,
        this`streamStartProduced, tokens
      ensures Valid() && (tokens == old(tokens) || fresh(tokens))
      ensures streamStartProduced && View() == Start(mark)
    {
      indent := -1;
      simpleKeys := simpleKeys + [NO_KEY];
      simpleKeyAllowed := true;
      streamStartProduced := true;
      assert delivered + Queued() == [];
      PushToken(StreamStartToken, mark, mark);
    }

    method FetchStreamEnd() returns (ok: bool)
      requires Valid() && !panicked && CanFetch(View())
      modifies this`tokens, this`tokensHead, this`tokensLen, this`indent, this`indents, this`simpleKeys,
               this`simpleKeyAllowed,
        this`flowLevel, this`mark, this`panicked, this`openLine, this`resumed, tokens
      ensures Valid() && (tokens == old(tokens) || fresh(tokens))
      ensures Did(FetchDone(old(View())), ok)
    {
      hide Queued, Unroll, RemoveKey, Levels, Push;
      ForceLine();
      UnrollIndent(-1);
      ok := RemoveSimpleKey();
      if !ok { return; }
      EndStream();
    }

    method EndStream()
      requires Valid()
      modifies this`tokens, this`tokensHead, this`tokensLen, this`simpleKeyAllowed, this`resumed, tokens
      ensures Valid() && (tokens == old(tokens) || fresh(tokens))
      ensures var s := old(View()); View() == Push(s, StreamEndToken, s.mark, s.mark).(allowed := false, resumed := false)
    {
      hide Queued;
      PushToken(StreamEndToken, mark, mark);
      simpleKeyAllowed := false;
      resumed := false;
    }

    /** The end of the input counts as the end of a line. */
    method ForceLine()
      requires Valid()
      modifies this`mark
      ensures var m := old(View()).mark;
              View() == old(View()).(mark := if m.column != 0 then m.(column := 0, line := m.line + 1) else m)
    {
      hide Queued;
      if mark.column != 0 {
        mark := mark.(column := 0, line := mark.line + 1);
      }
    }

    /** Directives and the document indicators. */
    method FetchDocumentMarker(k: TokenKind, l: Lexeme) returns (ok: bool)
      requires Valid() && !panicked && CanFetch(View())
      modifies this`tokens, this`tokensHead, this`tokensLen, this`indent, this`indents, this`simpleKeys,
               this`simpleKeyAllowed,
        this`flowLevel, this`mark, this`panicked, this`openLine, this`resumed, tokens
      ensures Valid() && (tokens == old(tokens) || fresh(tokens))
      ensures Did(FetchMarker(old(View()), k, l), ok)
    {
      hide Queued, Unroll, RemoveKey, Take, Levels;
      UnrollIndent(-1);
      ok := RemoveSimpleKey();
      if !ok { return; }
      ok := Consume(k, l, false);
    }

    method FetchFlowCollectionStart(k: TokenKind, l: Lexeme) returns (ok: bool)
      requires Valid() && !panicked && CanFetch(View())
      modifies this`tokens, this`tokensHead, this`tokensLen, this`indent, this`indents, this`simpleKeys,
               this`simpleKeyAllowed,
        this`flowLevel, this`mark, this`panicked, this`openLine, this`resumed, tokens
      ensures Valid() && (tokens == old(tokens) || fresh(tokens))
      ensures Did(FetchOpen(old(View()), k, l), ok)
    {
      hide Queued, SaveKey, Take, Levels;
      ok := SaveSimpleKey();
      if !ok { return; }
      openLine := if flowLevel == 0 then l.start.line else openLine;
      IncreaseFlowLevel();
      ok := Consume(k, l, true);
    }

    method IncreaseFlowLevel()
      modifies this`simpleKeys, this`flowLevel
      ensures simpleKeys == old(simpleKeys) + [NO_KEY] && flowLevel == old(flowLevel) + 1
    {
      simpleKeys := simpleKeys + [NO_KEY];
      flowLevel := flowLevel + 1;
    }

    method DecreaseFlowLevel()
      requires flowLevel > 0 ==> simpleKeys != []
      modifies this`simpleKeys, this`flowLevel
      ensures old(flowLevel) > 0 ==> simpleKeys == old(simpleKeys)[..|old(simpleKeys)| - 1] && flowLevel == old(flowLevel) - 1
      ensures old(flowLevel) == 0 ==> simpleKeys == old(simpleKeys) && flowLevel == 0
    {
      if flowLevel > 0 {
        flowLevel := flowLevel - 1;
        simpleKeys := simpleKeys[..|simpleKeys| - 1];
      }
    }

    method FetchFlowCollectionEnd(k: TokenKind, l: Lexeme) returns (ok: bool)
      requires Valid() && !panicked && CanFetch(View())
      modifies this`tokens, this`tokensHead, this`tokensLen, this`indent, this`indents, this`simpleKeys,
               this`simpleKeyAllowed,
        this`flowLevel, this`mark, this`panicked, this`openLine, this`resumed, tokens
      ensures Valid() && (tokens == old(tokens) || fresh(tokens))
      ensures Did(FetchClose(old(View()), k, l), ok)
    {
      hide Queued, RemoveKey, Levels;
      ghost var outermost := flowLevel == 1;
      RemoveKeyKeeps(View());
      ok := RemoveSimpleKey();
      if !ok { return; }
      DecreaseFlowLevel();
      ok := ConsumeClose(k, l, outermost);
    }

    method ConsumeClose(k: TokenKind, l: Lexeme, ghost outermost: bool) returns (ok: bool)
      requires Valid() && !panicked
      modifies this`tokens, this`tokensHead, this`tokensLen, this`simpleKeyAllowed, this`mark, this`resumed, tokens
      ensures Valid() && (tokens == old(tokens) || fresh(tokens))
      ensures match Take(old(View()), k, l, false)
              case Good(t) => ok && !panicked && View() == t.(resumed := outermost && old(openLine) < l.start.line)
              case other => !ok && !panicked
    {
      hide Queued, Push;
      ok := Consume(k, l, false);
      if !ok { return; }
      resumed := outermost && openLine < l.start.line;
    }

    method FetchFlowEntry(l: Lexeme) returns (ok: bool)
      requires Valid() && !panicked && CanFetch(View())
      modifies this`tokens, this`tokensHead, this`tokensLen, this`indent, this`indents, this`simpleKeys,
               this`simpleKeyAllowed,
        this`flowLevel, this`mark, this`panicked, this`openLine, this`resumed, tokens
      ensures Valid() && (tokens == old(tokens) || fresh(tokens))
      ensures Did(FetchComma(old(View()), l), ok)
    {
      hide Queued, RemoveKey, Take, Levels;
      ok := RemoveSimpleKey();
      if !ok { return; }
      ok := Consume(FlowEntryToken, l, true);
    }

    method FetchBlockEntry(l: Lexeme) returns (ok: bool)
      requires Valid() && !panicked && CanFetch(View())
      modifies this`tokens, this`tokensHead, this`tokensLen, this`indent, this`indents, this`simpleKeys,
               this`simpleKeyAllowed,
        this`flowLevel, this`mark, this`panicked, this`openLine, this`resumed, tokens
      ensures Valid() && (tokens == old(tokens) || fresh(tokens))
      ensures Did(FetchEntry(old(View()), BlockSequenceStartToken, BlockEntryToken, l, true), ok)
    {
      hide Queued, RemoveKey, Take, Roll, Levels;
      if flowLevel == 0 {
        if !simpleKeyAllowed { return false; }
        RollIndent(mark.column, -1, BlockSequenceStartToken, mark);
      } else {
        RollNothing(View(), BlockSequenceStartToken);
      }
      ok := RemoveSimpleKey();
      if !ok { return; }
      ok := Consume(BlockEntryToken, l, true);
    }

    method FetchKey(l: Lexeme) returns (ok: bool)
      requires Valid() && !panicked && CanFetch(View())
      modifies this`tokens, this`tokensHead, this`tokensLen, this`indent, this`indents, this`simpleKeys,
               this`simpleKeyAllowed,
        this`flowLevel, this`mark, this`panicked, this`openLine, this`resumed, tokens
      ensures Valid() && (tokens == old(tokens) || fresh(tokens))
      ensures Did(FetchEntry(old(View()), BlockMappingStartToken, KeyToken, l, old(View()).level == 0), ok)
    {
      hide Queued, RemoveKey, Take, Roll, Levels;
      if flowLevel == 0 {
        if !simpleKeyAllowed { return false; }
        RollIndent(mark.column, -1, BlockMappingStartToken, mark);
      } else {
        RollNothing(View(), BlockMappingStartToken);
      }
      ok := RemoveSimpleKey();
      if !ok { return; }
      ok := Consume(KeyToken, l, flowLevel == 0);
    }

    method FetchColon(l: Lexeme) returns (ok: bool)
      requires Valid() && !panicked && CanFetch(View()) && Free(View(), tokensParsed)
      modifies this`tokens, this`tokensHead, this`tokensLen, this`indent, this`indents, this`simpleKeys,
               this`simpleKeyAllowed,
        this`flowLevel, this`mark, this`panicked, this`openLine, this`resumed, tokens
      ensures Valid() && (tokens == old(tokens) || fresh(tokens))
      ensures Did(FetchValue(old(View()), l), ok)
    {
      hide Queued, Take, Roll, Levels, Insert;
      var key := simpleKeys[|simpleKeys| - 1];
      if key.possible {
        InsertNumbered(key.number, KeyToken, key.mark);
        InsertLength(old(View()).tokens, key.number, Token(KeyToken, key.mark, key.mark));
        RollIndent(key.mark.column, key.number, BlockMappingStartToken, key.mark);
        simpleKeys := simpleKeys[|simpleKeys| - 1 := key.(possible := false)];
        ok := Consume(ValueToken, l, false);
      } else {
        if flowLevel == 0 {
          if !simpleKeyAllowed { return false; }
          RollIndent(mark.column, -1, BlockMappingStartToken, mark);
        } else {
          RollNothing(View(), BlockMappingStartToken);
        }
        ok := Consume(ValueToken, l, flowLevel == 0);
      }
    }

    /** Aliases and anchors, tags, quoted scalars, plain scalars. */
    method FetchContent(k: TokenKind, l: Lexeme, allowed: bool) returns (ok: bool)
      requires Valid() && !panicked && CanFetch(View())
      modifies this`tokens, this`tokensHead, this`tokensLen, this`indent, this`indents, this`simpleKeys,
               this`simpleKeyAllowed,
        this`flowLevel, this`mark, this`panicked, this`openLine, this`resumed, tokens
      ensures Valid() && (tokens == old(tokens) || fresh(tokens))
      ensures Did(FetchKeyable(old(View()), k, l, allowed), ok)
    {
      hide Queued, SaveKey, Take, Levels;
      ok := SaveSimpleKey();
      if !ok { return; }
      ok := Consume(k, l, allowed);
    }

    method FetchBlockScalar(k: TokenKind, l: Lexeme) returns (ok: bool)
      requires Valid() && !panicked && CanFetch(View())
      modifies this`tokens, this`tokensHead, this`tokensLen, this`indent, this`indents, this`simpleKeys,
               this`simpleKeyAllowed,
        this`flowLevel, this`mark, this`panicked, this`openLine, this`resumed, tokens
      ensures Valid() && (tokens == old(tokens) || fresh(tokens))
      ensures Did(FetchBlockText(old(View()), k, l), ok)
    {
      hide Queued, RemoveKey, Take, Levels;
      ok := RemoveSimpleKey();
      if !ok { return; }
      ok := Consume(k, l, true);
    }

    // ------------------------------------------------------ the dispatcher

    /** Skip to the next lexeme, drop stale keys, close deeper levels. */
    method ApproachLexeme(start: Mark) returns (ok: bool)
      requires Valid() && !panicked && CanFetch(View())
      modifies this`tokens, this`tokensHead, this`tokensLen, this`indent, this`indents, this`simpleKeys,
               this`simpleKeyAllowed,
        this`flowLevel, this`mark, this`panicked, this`openLine, this`resumed, tokens
      ensures Valid() && (tokens == old(tokens) || fresh(tokens))
      ensures Did(Settle(old(View()), start), ok)
    {
      hide Queued, StaleKeys, Unroll;
      if flowLevel == 0 && mark.line < start.line {
        simpleKeyAllowed := true;
      }
      resumed := resumed && mark.line == start.line;
      mark := start;
      ghost var s := View();
      assert s == Approach(old(View()), start);
      StaleKeepsLevels(s);
      ok := StaleSimpleKeys();
      if !ok { return; }
      UnrollIndent(mark.column);
    }

    method Fetches(l: Lexeme) returns (ok: bool)
      requires Valid() && !panicked && Inv(View()) && Free(View(), tokensParsed) && Follows(mark, l)
      modifies this`tokens, this`tokensHead, this`tokensLen, this`indent, this`indents, this`simpleKeys,
               this`simpleKeyAllowed,
        this`flowLevel, this`mark, this`panicked, this`openLine, this`resumed, tokens
      ensures Valid() && (tokens == old(tokens) || fresh(tokens))
      ensures Did(Fetch(old(View()), l), ok)
    {
      hide Queued, Nested, InOrder, KeysPlaced, Columns, Levels, Settle, FetchAt, Free;
      ghost var s := View();
      ok := ApproachLexeme(l.start);
      if !ok { return; }
      SettleFree(s, tokensParsed, l.start);
      ExtendsFree(s, tokensParsed, Settle(s, l.start).scan);
      ok := FetchLexeme(l);
    }

    method FetchLexeme(l: Lexeme) returns (ok: bool)
      requires Valid() && !panicked && CanFetch(View()) && Free(View(), tokensParsed)
      modifies this`tokens, this`tokensHead, this`tokensLen, this`indent, this`indents, this`simpleKeys,
               this`simpleKeyAllowed,
        this`flowLevel, this`mark, this`panicked, this`openLine, this`resumed, tokens
      ensures Valid() && (tokens == old(tokens) || fresh(tokens))
      ensures Did(FetchAt(old(View()), l), ok)
    {
      hide Queued, View, Did, Free, CanFetch, FetchDone, FetchMarker, FetchOpen, FetchClose, FetchComma, FetchEntry,
           FetchValue, FetchKeyable, FetchBlockText;
      match l.what
      case Done => ok := FetchStreamEnd();
      case Directive(k) => ok := FetchDocumentMarker(k, l);
      case DocumentMarker(k) => ok := FetchDocumentMarker(k, l);
      case FlowOpen(k) => ok := FetchFlowCollectionStart(k, l);
      case FlowClose(k) => ok := FetchFlowCollectionEnd(k, l);
      case Comma => ok := FetchFlowEntry(l);
      case Dash => ok := FetchBlockEntry(l);
      case Question => ok := FetchKey(l);
      case Colon => ok := FetchColon(l);
      case Property(k) => ok := FetchContent(k, l, false);
      case Quoted(k) => ok := FetchContent(k, l, false);
      case Plain(k, ranOn) => ok := FetchContent(k, l, ranOn);
      case BlockText(k) => ok := FetchBlockScalar(k, l);
      case Nothing =>
        ok := false;
        assert Did(Failure, ok) by { DidFailure(); }
    }

    lemma DidFailure()
      requires Valid() && !panicked
      ensures Did(Failure, false)
    {
    }

    // ----------------------------------------------------- on demand

    /** Keys may have been dropped since the last lexeme was fetched, but only stale ones. */
    ghost predicate SameButStale(goal: Scan)
      requires Valid()
      reads this`tokens, this`tokensHead, this`tokensLen, this`tokensParsed, this`delivered, this`simpleKeys,
            this`simpleKeyAllowed,
        this`flowLevel, this`indent, this`indents, this`mark, this`openLine, this`resumed, tokens
    {
      var s := View();
      && goal == s.(keys := goal.keys) && |goal.keys| == |s.keys|
      && forall i | 0 <= i < |s.keys| ::
           s.keys[i] == goal.keys[i] || (!goal.keys[i].required && s.keys[i] == goal.keys[i].(possible := false))
    }

    /** Between two calls: `goal` is what fetching everything at once would give. */
    ghost predicate Ready(goal: Result)
      reads this`next, this`panicked, this`streamStartProduced, this`tokens, this`tokensHead, this`tokensLen,
            this`tokensParsed, this`delivered, this`simpleKeys, this`simpleKeyAllowed,
        this`flowLevel, this`indent, this`indents, this`mark, this`openLine, this`resumed, tokens
    {
      && Valid() && !panicked && streamStartProduced
      && Inv(View()) && Free(View(), tokensParsed) && Free(View(), 1)
      && (if next < |lexemes| then
            && Text(mark, lexemes[next..]) && goal == FetchAll(View(), lexemes[next..])
            && Inner(View().tokens) && View().tokens[0].kind.StreamStartToken?
          else
            next == |lexemes| && goal.Good? && SameButStale(goal.scan) && Ended(View()) && Sealed(View().tokens))
    }

    /** Nothing has been fetched yet. */
    ghost predicate Unstarted(goal: Result)
      reads this`next, this`panicked, this`streamStartProduced, this`tokens, this`tokensHead, this`tokensLen,
            this`tokensParsed, this`delivered, this`simpleKeys, this`simpleKeyAllowed,
        this`flowLevel, this`indent, this`indents, this`mark, this`openLine, this`resumed, tokens
    {
      && Valid() && !panicked && !streamStartProduced && next == 0
      && delivered == [] && Queued() == [] && simpleKeys == [] && flowLevel == 0 && indents == [] && openLine == 0 && !resumed
      && Text(mark, lexemes) && Inv(Start(mark)) && goal == FetchAll(Start(mark), lexemes)
    }

    /** The text can be scanned, and no key that needs its `:` is still open at its end. */
    static ghost predicate Completes(goal: Result) {
      goal.Good? && !MissesValue(goal.scan.keys, goal.scan.mark)
    }

    method FetchNextToken(ghost goal: Result) returns (ok: bool)
      requires Unstarted(goal) || (Ready(goal) && next < |lexemes|)
      modifies this`next, this`tokens, this`tokensHead, this`tokensLen, this`indent, this`indents, this`simpleKeys,
               this`simpleKeyAllowed,
        this`flowLevel, this`mark, this`panicked, this`openLine, this`resumed, this`streamStartProduced, tokens
      ensures Valid() && (tokens == old(tokens) || fresh(tokens))
      ensures next == (if old(streamStartProduced) then old(next) + 1 else old(next)) && streamStartProduced
      ensures ok ==> Ready(goal) && !panicked && tokensParsed < |View().tokens|
      ensures !ok ==> goal == if panicked then Panic else Failure
    {
      if !streamStartProduced {
        Begin(goal);
        ok := true;
      } else {
        ok := FetchAnother(goal);
      }
    }

    method Begin(ghost goal: Result)
      requires Unstarted(goal)
      modifies this`tokens, this`tokensHead, this`tokensLen, this`indent, this`simpleKeys, this`simpleKeyAllowed,
        this`streamStartProduced, tokens
      ensures Valid() && (tokens == old(tokens) || fresh(tokens))
      ensures Ready(goal) && tokensParsed < |View().tokens|
    {
      FetchStreamStart();
      assert lexemes[0..] == lexemes;
      hide Queued, View, Inv, FetchAll, Text;
    }

    method FetchAnother(ghost goal: Result) returns (ok: bool)
      requires Ready(goal) && next < |lexemes|
      modifies this`next, this`tokens, this`tokensHead, this`tokensLen, this`indent, this`indents, this`simpleKeys,
               this`simpleKeyAllowed,
        this`flowLevel, this`mark, this`panicked, this`openLine, this`resumed, this`streamStartProduced, tokens
      ensures Valid() && (tokens == old(tokens) || fresh(tokens))
      ensures next == old(next) + 1 && streamStartProduced
      ensures ok ==> Ready(goal) && tokensParsed < |View().tokens|
      ensures !ok ==> goal == if panicked then Panic else Failure
    {
      hide Queued, View, Inv, Free, FetchAll, Text, Ended, Follows, Inner, Sealed, SameButStale, Fetch, CanFetch;
      ghost var s := View();
      FetchAllStep(s, tokensParsed, lexemes[next..]);
      FetchAllStep(s, 1, lexemes[next..]);
      InnerFetch(s, lexemes[next]);
      FreeCount(s, tokensParsed);
      var l := lexemes[next];
      next := next + 1;
      ok := Fetches(l);
      if ok {
        ViewSame();
      }
    }

    lemma ViewSame()
      requires Valid()
      ensures SameButStale(View())
    {
    }

    /** Drop stale keys while waiting for the next lexeme. */
    method DropStale(ghost goal: Result) returns (ok: bool)
      requires Ready(goal)
      modifies this`simpleKeys
      ensures ok ==> Ready(goal) && View().tokens == old(View()).tokens
      ensures ok && next == |lexemes| ==> Completes(goal) && forall i | 0 <= i < |simpleKeys| :: !simpleKeys[i].possible
      ensures !ok ==> !Completes(goal) && goal != Panic
    {
      hide Queued, Free, FetchAll, Text, Follows, Inner, Sealed;
      ghost var s := View();
      if next < |lexemes| {
        DropsNothing(s, lexemes[next..], tokensParsed);
      } else {
        DropsAll(s, goal.scan, tokensParsed);
      }
      ok := StaleSimpleKeys();
      hide View;
    }

    /** Make sure that the token at the head of the queue is final. */
    method FetchMoreTokens(ghost goal: Result) returns (ok: bool)
      requires Unstarted(goal) || (Ready(goal) && (next == |lexemes| ==> tokensParsed < |View().tokens|))
      modifies this`tokenAvailable, this`next, this`tokens, this`tokensHead, this`tokensLen, this`indent,
               this`indents, this`simpleKeys, this`simpleKeyAllowed,
        this`flowLevel, this`mark, this`panicked, this`openLine, this`resumed, this`streamStartProduced, tokens
      ensures Valid() && (tokens == old(tokens) || fresh(tokens))
      ensures old(next) <= next && (old(streamStartProduced) ==> streamStartProduced)
      ensures next == old(next) && streamStartProduced == old(streamStartProduced)
              ==> tokensLen == old(tokensLen) && tokensHead == old(tokensHead)
      ensures ok ==> Ready(goal) && tokenAvailable && tokensParsed < |View().tokens| && Free(View(), tokensParsed + 1)
      ensures ok && next == |lexemes| ==> Completes(goal)
      ensures !ok ==> !Completes(goal) && (panicked <==> goal == Panic) && tokenAvailable == old(tokenAvailable)
    {
      hide Ready, Unstarted, View, Queued, Free, Completes;
      PlainFacts(goal);
      ok := SettleHead(goal);
      tokenAvailable := tokenAvailable || ok;
    }

    lemma PlainFacts(goal: Result)
      requires Unstarted(goal) || Ready(goal)
      ensures Valid() && !panicked
    {
    }

    method SettleHead(ghost goal: Result) returns (ok: bool)
      requires Valid() && !panicked
      requires Unstarted(goal) || (Ready(goal) && (next == |lexemes| ==> tokensParsed < |View().tokens|))
      modifies this`next, this`tokens, this`tokensHead, this`tokensLen, this`indent, this`indents, this`simpleKeys,
               this`simpleKeyAllowed,
        this`flowLevel, this`mark, this`panicked, this`openLine, this`resumed, this`streamStartProduced, tokens
      ensures Valid() && (tokens == old(tokens) || fresh(tokens))
      ensures old(next) <= next && (old(streamStartProduced) ==> streamStartProduced)
      ensures next == old(next) && streamStartProduced == old(streamStartProduced)
              ==> tokensLen == old(tokensLen) && tokensHead == old(tokensHead)
      ensures ok ==> Ready(goal) && tokensParsed < |View().tokens| && Free(View(), tokensParsed + 1)
      ensures ok && next == |lexemes| ==> Completes(goal)
      ensures !ok ==> !Completes(goal) && (panicked <==> goal == Panic)
    {
      hide Ready, Unstarted, View, Queued, Free;
      ok := true;
      while true
        invariant Valid() && (tokens == old(tokens) || fresh(tokens)) && ok && !panicked
        invariant Unstarted(goal) || (Ready(goal) && (next == |lexemes| ==> tokensParsed < |View().tokens|))
        invariant old(next) <= next && (old(streamStartProduced) ==> streamStartProduced)
        invariant next == old(next) && streamStartProduced == old(streamStartProduced)
              ==> tokensLen == old(tokensLen) && tokensHead == old(tokensHead)
        decreases |lexemes| - next, !streamStartProduced
      {
        var needMoreTokens;
        ok, needMoreTokens := NeedsMore(goal);
        if !ok { return; }
        if !needMoreTokens { break; }
        ok := FetchNextToken(goal);
        if !ok { return; }
      }
    }

    /** The queue is empty, or its head may still move. */
    method NeedsMore(ghost goal: Result) returns (ok: bool, need: bool)
      requires Unstarted(goal) || (Ready(goal) && (next == |lexemes| ==> tokensParsed < |View().tokens|))
      modifies this`simpleKeys
      ensures ok && !need ==> Ready(goal) && tokensParsed < |View().tokens| && Free(View(), tokensParsed + 1)
      ensures ok && !need && next == |lexemes| ==> Completes(goal)
      ensures ok && need ==> Unstarted(goal) || (Ready(goal) && next < |lexemes|)
      ensures !ok ==> !Completes(goal) && goal != Panic
    {
      hide Inv, FetchAll, Text, Inner, Sealed, Ended, Completes;
      if tokensHead == tokensLen { return true, true; }
      ok := DropStale(goal);
      need := true;
      if !ok { return; }
      need := HeadMayMove();
    }

    /** A simple key may still start at the token at the head of the queue. */
    method HeadMayMove() returns (may: bool)
      ensures may <==> exists i :: 0 <= i < |simpleKeys| && simpleKeys[i].possible && simpleKeys[i].number == tokensParsed
    {
      for i := 0 to |simpleKeys|
        invariant forall k | 0 <= k < i :: !(simpleKeys[k].possible && simpleKeys[k].number == tokensParsed)
      {
        if simpleKeys[i].possible && simpleKeys[i].number == tokensParsed {
          return true;
        }
      }
      may := false;
    }

    // -------------------------------------------------- handing tokens out

    /** What the parser relies on between its calls. */
    ghost predicate Serving(goal: Result)
      reads this, tokens
    {
      if tokenAvailable then Final(goal)
      else !streamEndProduced && (Unstarted(goal) || (Ready(goal) && (next == |lexemes| ==> tokensParsed < |View().tokens|)))
    }

    /** The head of the queue can be handed out. */
    ghost predicate Final(goal: Result)
      reads this`next, this`panicked, this`streamStartProduced, this`tokens, this`tokensHead, this`tokensLen,
            this`tokensParsed,
        this`delivered, this`simpleKeys, this`simpleKeyAllowed, this`flowLevel, this`indent, this`indents, this`mark,
        this`openLine, this`resumed, tokens
    {
      && Ready(goal) && tokensParsed < |View().tokens| && Free(View(), tokensParsed + 1)
      && (next == |lexemes| ==> Completes(goal))
    }

    /** Look at the next token. */
    method PeekToken(ghost goal: Result) returns (ok: bool)
      requires Serving(goal)
      modifies this`tokenAvailable, this`next, this`tokens, this`tokensHead, this`tokensLen, this`indent,
               this`indents, this`simpleKeys, this`simpleKeyAllowed,
        this`flowLevel, this`mark, this`panicked, this`openLine, this`resumed, this`streamStartProduced, tokens
      ensures Valid() && (tokens == old(tokens) || fresh(tokens))
      ensures old(next) <= next && (old(streamStartProduced) ==> streamStartProduced)
      ensures next == old(next) && streamStartProduced == old(streamStartProduced)
              ==> tokensLen == old(tokensLen) && tokensHead == old(tokensHead)
      ensures ok ==> Final(goal) && tokenAvailable
      ensures !ok ==> !Completes(goal) && (panicked <==> goal == Panic)
    {
      hide Ready, Unstarted, View, Queued, Free, Completes;
      ok := tokenAvailable;
      if ok {
        PlainFacts(goal);
      } else {
        ok := FetchMoreTokens(goal);
      }
    }

    /** Take the next token off the queue. */
    method SkipToken(ghost goal: Result) returns (token: Token)
      requires Final(goal) && tokenAvailable
      modifies this`tokenAvailable, this`tokensParsed, this`tokensHead, this`streamEndProduced, this`delivered
      ensures Valid() && Ready(goal) && !tokenAvailable && View() == old(View())
      ensures delivered == old(delivered) + [token] && streamEndProduced == token.kind.StreamEndToken?
      ensures streamEndProduced ==> Completes(goal) && goal.Good? && delivered == goal.scan.tokens
      ensures !streamEndProduced ==> next == |lexemes| ==> tokensParsed < |View().tokens|
      ensures tokensHead == old(tokensHead) + 1
    {
      hide Inv, Free, Sealed, Inner, FetchAll, Text, Ended, Completes, Queued;
      ghost var s := View();
      LastOnly(s, tokensParsed, next < |lexemes|);
      token := Dequeue();
    }

    method Dequeue() returns (token: Token)
      requires Valid() && tokensParsed < |View().tokens|
      modifies this`tokenAvailable, this`tokensParsed, this`tokensHead, this`streamEndProduced, this`delivered
      ensures Valid() && View() == old(View()) && !tokenAvailable && tokensParsed == old(tokensParsed) + 1
      ensures tokensHead == old(tokensHead) + 1
      ensures token == View().tokens[old(tokensParsed)] && streamEndProduced == token.kind.StreamEndToken?
      ensures delivered == old(delivered) + [token] && delivered == View().tokens[..tokensParsed]
    {
      ghost var s := View();
      assert s.tokens == delivered + Queued();
      token := tokens[tokensHead];
      assert s.tokens == (delivered + [token]) + tokens[tokensHead + 1..tokensLen];
      tokenAvailable := false;
      tokensParsed := tokensParsed + 1;
      streamEndProduced := token.kind.StreamEndToken?;
      tokensHead := tokensHead + 1;
      delivered := delivered + [token];
      assert View().tokens == s.tokens;
    }

    lemma UnstartedFacts(goal: Result)
      requires Unstarted(goal) && !tokenAvailable && !streamEndProduced
      ensures Serving(goal) && Valid() && delivered == [] && Balanced([]) && !panicked && next <= |lexemes|
    {
    }

    /** What has been handed out is settled. */
    lemma HandedOut(goal: Result)
      requires Ready(goal)
      ensures Ordered(delivered) && Balanced(delivered) && (goal.Good? ==> delivered <= goal.scan.tokens)
      ensures next <= |lexemes|
    {
      hide Free, Sealed, Inner, Ended, FetchAll, Text, Queued;
      var s := View();
      assert delivered == s.tokens[..tokensParsed];
      PrefixFacts(s, tokensParsed);
      if next < |lexemes| {
        FetchAllExtends(s, tokensParsed, lexemes[next..]);
      }
    }
  }

  lemma RemoveKeyKeeps(s: Scan)
    requires s.keys != []
    ensures RemoveKey(s).Good? ==> |RemoveKey(s).scan.keys| == |s.keys| && RemoveKey(s).scan == s.(keys := RemoveKey(s).scan.keys)
  {
  }

  lemma StaleKeepsLevels(s: Scan)
    requires Levels(s.indents, s.indent)
    ensures StaleKeys(s).Good? ==> Levels(StaleKeys(s).scan.indents, StaleKeys(s).scan.indent)
                                   && StaleKeys(s).scan == s.(keys := StaleKeys(s).scan.keys)
  {
  }

  /** Tokens come in the order of the text. */
  ghost predicate Ordered(tokens: seq<Token>) {
    forall i, j | 0 <= i <= j < |tokens| :: tokens[i].start.index <= tokens[j].start.index
  }

  lemma PrefixFacts(s: Scan, p: nat)
    requires Inv(s) && p <= |s.tokens|
    ensures Ordered(s.tokens[..p]) && Balanced(s.tokens[..p])
  {
    hide Depth, Levels, KeysPlaced, Columns;
    forall k | 0 <= k <= p ensures Depth(s.tokens[..p][..k]) >= 0 {
      assert s.tokens[..p][..k] == s.tokens[..k];
    }
  }

  /** The scanner hands out token by token what fetching the whole text would give, whatever
      it has looked ahead; the tokens come in the order of the text, and block collections
      nest.  It fails or panics exactly when fetching the whole text would, or when a key
      without its `:` is left at the end. */
  method ScanTokens(start: Mark, lexemes: seq<Lexeme>) returns (ok: bool, panicked: bool, out: seq<Token>)
    requires Text(start, lexemes)
    ensures ok <==> Scanner.Completes(Tokenised(start, lexemes))
    ensures panicked <==> Tokenised(start, lexemes) == Panic
    ensures ok ==> out == Tokenised(start, lexemes).scan.tokens && Sealed(out)
    ensures Tokenised(start, lexemes).Good? ==> out <= Tokenised(start, lexemes).scan.tokens
    ensures Ordered(out) && Balanced(out)
  {
    ghost var goal := Tokenised(start, lexemes);
    TokenisedSeals(start, lexemes);
    StartInv(start);
    var scanner := new Scanner(start, lexemes);
    hide Inv, Text, FetchAll, Sealed, Inner, Scanner.Completes, Depth, Tokenised;
    ok, panicked, out := Drain(scanner, goal);
  }

  method Drain(scanner: Scanner, ghost goal: Result) returns (ok: bool, panicked: bool, out: seq<Token>)
    requires scanner.Unstarted(goal) && !scanner.tokenAvailable && !scanner.streamEndProduced
    modifies scanner, scanner.tokens
    ensures ok <==> Scanner.Completes(goal)
    ensures panicked <==> goal == Panic
    ensures ok ==> out == goal.scan.tokens
    ensures goal.Good? ==> out <= goal.scan.tokens
    ensures Ordered(out) && Balanced(out)
  {
    hide Scanner.Ready, Scanner.Unstarted, Scanner.View, Scanner.Queued, Inv, Free, Text, FetchAll, Balanced,
         Scanner.Completes;
    scanner.UnstartedFacts(goal);
    out, ok, panicked := [], true, false;
    while !scanner.streamEndProduced
      invariant scanner.Valid() && (scanner.tokens == old(scanner.tokens) || fresh(scanner.tokens))
      invariant !scanner.streamEndProduced ==> scanner.Serving(goal)
      invariant scanner.streamEndProduced ==> Scanner.Completes(goal) && goal.Good? && out == goal.scan.tokens
      invariant out == scanner.delivered && ok && !panicked && scanner.next <= |scanner.lexemes|
      invariant Ordered(out) && Balanced(out) && (goal.Good? ==> out <= goal.scan.tokens)
      decreases |scanner.lexemes| - scanner.next, !scanner.streamStartProduced, scanner.tokensLen - scanner.tokensHead
    {
      ok := scanner.PeekToken(goal);
      if !ok {
        panicked := scanner.panicked;
        return;
      }
      var token := scanner.SkipToken(goal);
      out := out + [token];
      scanner.HandedOut(goal);
    }
  }

  /** STREAM-END is the last token of all. */
  lemma LastOnly(s: Scan, p: nat, more: bool)
    requires p < |s.tokens| && (if more then Inner(s.tokens) && s.tokens[0].kind.StreamStartToken? else Sealed(s.tokens))
    ensures s.tokens[p].kind.StreamEndToken? ==> !more && p == |s.tokens| - 1
    ensures !s.tokens[p].kind.StreamEndToken? && !more ==> p + 1 < |s.tokens|
  {
    if !more && p < |s.tokens| - 1 && p > 0 {
      assert s.tokens[p] == s.tokens[..|s.tokens| - 1][p];
    }
  }

  /** One level less. */
  function Lower(s: Scan): Scan
    requires s.indents != []
  {
    Push(s, BlockEndToken, s.mark, s.mark).(indent := s.indents[|s.indents| - 1], indents := s.indents[..|s.indents| - 1])
  }

  lemma UnrollOne(s: Scan, column: int)
    requires Levels(s.indents, s.indent) && column >= -1 && s.level == 0 && s.indent > column
    ensures s.indents != [] && Levels(Lower(s).indents, Lower(s).indent) && Unroll(Lower(s), column) == Unroll(s, column)
  {
  }

  /** Inside a flow collection no level opens. */
  lemma RollNothing(s: Scan, k: TokenKind)
    requires s.level > 0
    ensures Roll(s, s.mark.column, |s.tokens|, k, s.mark) == s
  {
  }

  lemma IsInserted<T>(q: seq<T>, r: seq<T>, i: nat, x: T)
    requires i <= |q| && |r| == |q| + 1 && r[i] == x
    requires forall k | 0 <= k < i :: r[k] == q[k]
    requires forall k | i < k < |r| :: r[k] == q[k - 1]
    ensures r == Insert(q, i, x)
  {
  }

  lemma InsertBehind(front: seq<Token>, q: seq<Token>, number: nat, t: Token)
    requires |front| <= number <= |front| + |q|
    ensures front + Insert(q, number - |front|, t) == Insert(front + q, number, t)
  {
  }
}
