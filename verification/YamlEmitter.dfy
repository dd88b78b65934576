/** The emitter's writer of double-quoted scalars, over its small output buffer. */
module YamlEmitter {
  import opened Bytes
  import opened YamlUtf8
  import opened YamlQuoted

  const OUTPUT_BUFFER_SIZE := 128

  class Emitter {
    /** Characters waiting to be handed to the write handler. */
    const buffer: array<byte>
    var bufferPos: nat
    /** What the write handler has received, and how many more calls it will accept. */
    var received: seq<byte>
    var quota: nat

    const unicode: bool
    const lineBreak: seq<byte>
    const bestWidth: int
    const indent: nat
    var column: nat
    var whitespace: bool
    var indention: bool
    var openEnded: bool

    constructor (unicode: bool, lineBreak: seq<byte>, bestWidth: int, indent: nat, column: nat,
                 whitespace: bool, indention: bool, quota: nat)
      requires lineBreak == [0x0A] || lineBreak == [0x0D] || lineBreak == [0x0D, 0x0A]
      ensures Valid() && fresh(buffer) && Out() == []
      ensures this.unicode == unicode && this.lineBreak == lineBreak && this.bestWidth == bestWidth && this.indent == indent
      ensures this.column == column && this.whitespace == whitespace && this.indention == indention && this.quota == quota
    {
      buffer := new byte[OUTPUT_BUFFER_SIZE](_ => 0);
      bufferPos, received, this.quota := 0, [], quota;
      this.unicode, this.lineBreak, this.bestWidth, this.indent := unicode, lineBreak, bestWidth, indent;
      this.column, this.whitespace, this.indention, openEnded := column, whitespace, indention, false;
    }

    ghost predicate Valid()
      reads this
    {
      && buffer.Length == OUTPUT_BUFFER_SIZE && bufferPos <= OUTPUT_BUFFER_SIZE
      && (lineBreak == [0x0A] || lineBreak == [0x0D] || lineBreak == [0x0D, 0x0A])
    }

    /** Everything written so far, handed over or not. */
    ghost function Out(): seq<byte>
      requires Valid()
      reads this, buffer
    {
      received + buffer[..bufferPos]
    }

    /** Hand the buffer to the write handler, unless it is empty. */
    method Flush() returns (ok: bool)
      requires Valid()
      modifies this`bufferPos, this`received, this`quota
      ensures Valid() && Out() == old(Out())
      ensures ok ==> bufferPos == 0
      ensures (!ok ==> quota == 0) && old(quota) <= quota + 1
    {
      if bufferPos == 0 { return true; }
      if quota == 0 { return false; }
      received := received + buffer[..bufferPos];
      bufferPos, quota, ok := 0, quota - 1, true;
    }

    /** Make room for one more character. */
    method Room() returns (ok: bool)
      requires Valid()
      modifies this`bufferPos, this`received, this`quota
      ensures Valid() && Out() == old(Out())
      ensures ok ==> bufferPos + 5 < buffer.Length
      ensures (!ok ==> quota == 0) && old(quota) <= quota + 1
    {
      ok := true;
      if bufferPos + 5 >= buffer.Length {
        ok := Flush();
      }
    }

    method Put(value: byte) returns (ok: bool)
      requires Valid()
      modifies this`bufferPos, this`received, this`quota, this`column, buffer
      ensures Valid() && (!ok ==> quota == 0) && old(quota) <= quota + 1
      ensures ok ==> Out() == old(Out()) + [value] && column == old(column) + 1
    {
      ok := Room();
      if !ok { return; }
      ghost var out := Out();
      buffer[bufferPos] := value;
      bufferPos, column := bufferPos + 1, column + 1;
      assert buffer[..bufferPos] == buffer[..bufferPos - 1] + [value];
    }

    method PutBreak() returns (ok: bool)
      requires Valid()
      modifies this`bufferPos, this`received, this`quota, this`column, buffer
      ensures Valid() && (!ok ==> quota == 0) && old(quota) <= quota + 1
      ensures ok ==> Out() == old(Out()) + lineBreak && column == 0
    {
      ok := Room();
      if !ok { return; }
      ghost var start := bufferPos;
      if lineBreak == [0x0D] {
        buffer[bufferPos] := 0x0D;
        bufferPos := bufferPos + 1;
      } else if lineBreak == [0x0A] {
        buffer[bufferPos] := 0x0A;
        bufferPos := bufferPos + 1;
      } else {
        buffer[bufferPos] := 0x0D;
        buffer[bufferPos + 1] := 0x0A;
        bufferPos := bufferPos + 2;
      }
      column := 0;
      assert buffer[..bufferPos] == buffer[..start] + lineBreak;
    }

    /** Copy the character that starts at `s[i]`. */
    method Write(s: seq<byte>, i: nat) returns (ok: bool, next: nat)
      requires Valid() && i < |s| && Width(s[i]) > 0 && i + Width(s[i]) <= |s|
      modifies this`bufferPos, this`received, this`quota, this`column, buffer
      ensures Valid() && (!ok ==> quota == 0) && old(quota) <= quota + 1
      ensures ok ==> next == i + Width(s[i]) && Out() == old(Out()) + s[i..next] && column == old(column) + 1
    {
      hide Width;
      ok := Room();
      next := i;
      if !ok { return; }
      var w := CopyOctets(s, i);
      assert buffer[..bufferPos + w] == buffer[..bufferPos] + s[i..i + w];
      column, bufferPos, next := column + 1, bufferPos + w, i + w;
    }

    /** The octets of one character, the last first. */
    method CopyOctets(s: seq<byte>, i: nat) returns (w: nat)
      requires i < |s| && 1 <= Width(s[i]) && i + Width(s[i]) <= |s| && bufferPos + 4 <= buffer.Length
      modifies buffer
      ensures w == Width(s[i]) <= 4 && buffer[..bufferPos] == old(buffer[..bufferPos])
      ensures buffer[bufferPos..bufferPos + w] == s[i..i + w]
    {
      var p := bufferPos;
      w := Width(s[i]);
      if w == 4 { buffer[p + 3] := s[i + 3]; }
      if w >= 3 { buffer[p + 2] := s[i + 2]; }
      if w >= 2 { buffer[p + 1] := s[i + 1]; }
      buffer[p] := s[i];
    }

    method WriteAll(s: seq<byte>) returns (ok: bool)
      requires Valid() && forall i | 0 <= i < |s| :: s[i] < 0x80
      modifies this`bufferPos, this`received, this`quota, this`column, buffer
      ensures Valid() && (!ok ==> quota == 0) && old(quota) <= quota + |s|
      ensures ok ==> Out() == old(Out()) + s && column == old(column) + |s|
    {
      var i := 0;
      ok := true;
      while i < |s|
        invariant Valid() && i <= |s| && ok && old(quota) <= quota + i
        invariant Out() == old(Out()) + s[..i] && column == old(column) + i
      {
        ok, i := Write(s, i);
        if !ok { return; }
      }
    }

    /** Start a line, and indent it. */
    method WriteIndent() returns (ok: bool)
      requires Valid()
      modifies this`bufferPos, this`received, this`quota, this`column, this`whitespace, this`indention, buffer
      ensures Valid() && (!ok ==> quota == 0) && old(quota) <= quota + indent + 1
      ensures ok ==> whitespace && indention && column >= indent
      ensures ok && (!old(indention) || old(column) > indent || (old(column) == indent && !old(whitespace))) ==>
                Out() == old(Out()) + (lineBreak + Blanks(indent)) && column == indent
      ensures ok && !(!old(indention) || old(column) > indent || (old(column) == indent && !old(whitespace))) ==>
                Out() == old(Out()) + Blanks(indent - old(column)) && column == indent
    {
      if !indention || column > indent || (column == indent && !whitespace) {
        ok := PutBreak();
        if !ok { return; }
      }
      ok := Pad();
      whitespace, indention := whitespace || ok, indention || ok;
    }

    method Pad() returns (ok: bool)
      requires Valid() && column <= indent
      modifies this`bufferPos, this`received, this`quota, this`column, buffer
      ensures Valid() && (!ok ==> quota == 0) && old(quota) <= quota + (indent - old(column))
      ensures ok ==> Out() == old(Out()) + Blanks(indent - old(column)) && column == indent
    {
      ghost var before, start := Out(), column;
      ok := true;
      while column < indent
        invariant Valid() && start <= column <= indent && ok && old(quota) <= quota + (column - start)
        invariant Out() == before + Blanks(column - start)
      {
        ok := Put(0x20);
        if !ok { return; }
        assert Blanks(column - start) == Blanks(column - 1 - start) + [0x20];
      }
    }

    method WriteIndicator(indicator: seq<byte>, needWhitespace: bool, isWhitespace: bool, isIndention: bool) returns (ok: bool)
      requires Valid() && forall i | 0 <= i < |indicator| :: indicator[i] < 0x80
      modifies this`bufferPos, this`received, this`quota, this`column, this`whitespace, this`indention,
               this`openEnded, buffer
      ensures Valid() && (!ok ==> quota == 0) && old(quota) <= quota + |indicator| + if needWhitespace then 1 else 0
      ensures ok ==> Out() == old(Out()) + (if needWhitespace && !old(whitespace) then [0x20] else []) + indicator
      ensures ok ==> whitespace == isWhitespace && indention == (old(indention) && isIndention) && !openEnded
    {
      ok := true;
      if needWhitespace && !whitespace {
        ok := Put(0x20);
        if !ok { return; }
      }
      ok := WriteAll(indicator);
      if !ok { return; }
      whitespace, indention, openEnded := isWhitespace, indention && isIndention, false;
    }

    /** The digits of a hexadecimal escape, highest first. */
    method PutHex(v: nat, digits: nat) returns (ok: bool)
      requires Valid()
      modifies this`bufferPos, this`received, this`quota, this`column, buffer
      ensures Valid() && (!ok ==> quota == 0) && old(quota) <= quota + digits
      ensures ok ==> Out() == old(Out()) + HexDigits(v, digits) && column == old(column) + digits
    {
      ok := true;
      var k: nat := digits;
      while ok && k > 0
        invariant Valid() && k <= digits && (!ok ==> quota == 0) && old(quota) <= quota + (digits - k)
        invariant ok ==> Out() == old(Out()) + HexDigits(Shift(v, k), digits - k) && column == old(column) + digits - k
      {
        k := k - 1;
        var digit := Shift(v, k) % 16;
        if digit < 10 {
          ok := Put(digit + 0x30);
        } else {
          ok := Put(digit + 0x41 - 10);
        }
      }
    }

    /** Write the character at `value[i]` as an escape sequence. */
    method WriteEscape(value: seq<byte>, i: nat, ghost r: rune) returns (ok: bool, next: nat)
      requires Valid() && Has(value, i, Encode(r))
      modifies this`bufferPos, this`received, this`quota, this`column, buffer
      ensures Valid() && (!ok ==> quota == 0) && old(quota) <= quota + 10
      ensures ok ==> next == i + |Encode(r)| && Out() == old(Out()) + EscapeText(r) && column > old(column)
    {
      hide Has, Encode, EscapeText, Valid, Out;
      var w, v := DecodeAt(value, i, r);
      next := i + w;
      ok := Put(0x5C);
      if !ok { return; }
      EscapeStarts(r);
      assert EscapeText(r) == [0x5C] + EscapeText(r)[1..];
      ok := PutEscape(v);
    }

    /** The part of an escape sequence behind the backslash. */
    method PutEscape(v: rune) returns (ok: bool)
      requires Valid()
      modifies this`bufferPos, this`received, this`quota, this`column, buffer
      ensures Valid() && (!ok ==> quota == 0) && old(quota) <= quota + 9
      ensures ok ==> Out() == old(Out()) + EscapeText(v)[1..] && column > old(column)
    {
      hide HexDigits, Valid, Out;
      match v
      case 0x00 => ok := Put(0x30);
      case 0x07 => ok := Put(0x61);
      case 0x08 => ok := Put(0x62);
      case 0x09 => ok := Put(0x74);
      case 0x0A => ok := Put(0x6E);
      case 0x0B => ok := Put(0x76);
      case 0x0C => ok := Put(0x66);
      case 0x0D => ok := Put(0x72);
      case 0x1B => ok := Put(0x65);
      case 0x22 => ok := Put(0x22);
      case 0x5C => ok := Put(0x5C);
      case 0x85 => ok := Put(0x4E);
      case 0xA0 => ok := Put(0x5F);
      case 0x2028 => ok := Put(0x4C);
      case 0x2029 => ok := Put(0x50);
      case _ => ok := PutLongEscape(v);
    }

    method PutLongEscape(v: rune) returns (ok: bool)
      requires Valid()
      modifies this`bufferPos, this`received, this`quota, this`column, buffer
      ensures Valid() && (!ok ==> quota == 0) && old(quota) <= quota + 9
      ensures ok ==> Out() == old(Out()) + LongEscape(v) && column > old(column)
    {
      hide HexDigits, Valid, Out;
      var w;
      if v <= 0xFF {
        ok := Put(0x78);
        w := 2;
      } else if v <= 0xFFFF {
        ok := Put(0x75);
        w := 4;
      } else {
        ok := Put(0x55);
        w := 8;
      }
      if ok {
        ok := PutHex(v, w);
      }
    }

    /** As many calls of the write handler are enough for the characters; most need none. */
    ghost function Calls(rs: seq<rune>): nat {
      |rs| * (indent + 10)
    }

    lemma CallsMore(rs: seq<rune>, k: nat)
      requires k < |rs|
      ensures Calls(rs[..k + 1]) == Calls(rs[..k]) + (indent + 10)
    {
      var c := indent + 10;
      assert (k + 1) * c == k * c + c;
    }

    lemma CallsRest(rs: seq<rune>, k: nat)
      requires k < |rs|
      ensures Calls(rs[..k]) + (indent + 10) <= Calls(rs)
    {
      var c := indent + 10;
      Product(k + 1, |rs|, c);
      assert (k + 1) * c == k * c + c;
    }

    /** The layout that results when the spaces in `folds` became line breaks. */
    ghost function Folding(folds: set<nat>): Layout {
      Layout(unicode, lineBreak, indent, folds)
    }

    /** A double-quoted scalar.  `rs` are the characters of `value`; `folds` tells which
        spaces were turned into line breaks. */
    method WriteDoubleQuoted(value: seq<byte>, allowBreaks: bool, ghost rs: seq<rune>)
      returns (ok: bool, ghost folds: set<nat>)
      requires Valid() && value == EncodeAll(rs) && indent > 0
      modifies this, buffer
      ensures Valid() && (!ok ==> quota == 0) && old(quota) <= quota + Calls(rs) + 3
      ensures GoodLayout(rs, Folding(folds)) && (!allowBreaks ==> folds == {})
      ensures ok ==> Out() == old(Out()) + (if old(whitespace) then [] else [0x20])
                              + ([0x22] + Written(rs, 0, Folding(folds)) + [0x22])
    {
      hide EncodeAll, Written, GoodLayout, Calls;
      folds := {};
      WrittenStart(rs, Folding({}));
      ok := WriteIndicator([0x22], true, false, false);
      if !ok { return; }
      ok, folds := WriteCharacters(value, allowBreaks, rs);
      if !ok { return; }
      ok := WriteIndicator([0x22], false, false, false);
      if !ok { return; }
      whitespace, indention := false, false;
    }

    /** Everything between the quotes. */
    method WriteCharacters(value: seq<byte>, allowBreaks: bool, ghost rs: seq<rune>)
      returns (ok: bool, ghost folds: set<nat>)
      requires Valid() && value == EncodeAll(rs) && indent > 0 && !indention
      modifies this`bufferPos, this`received, this`quota, this`column, this`whitespace, this`indention, buffer
      ensures Valid() && (!ok ==> quota == 0) && old(quota) <= quota + Calls(rs)
      ensures GoodLayout(rs, Folding(folds)) && (!allowBreaks ==> folds == {})
      ensures ok ==> Out() == old(Out()) + Written(rs, 0, Folding(folds))
    {
      hide EncodeAll, Written, GoodLayout, OffsetOf, Piece, WrittenTo, EscapedAt, SpaceBefore, CharacterIs, Calls;
      folds, ok := {}, true;
      WrittenStart(rs, Folding({}));
      ghost var base := Out();
      var spaces, i := false, 0;
      ghost var k := 0;
      while i < |value|
        invariant Valid() && ok && k <= |rs| && i == OffsetOf(rs, k) && i <= |value|
        invariant old(quota) <= quota + Calls(rs[..k])
        invariant GoodLayout(rs, Folding(folds)) && (!allowBreaks ==> folds == {}) && forall f | f in folds :: f < k
        invariant Out() == base + WrittenTo(rs, k, Folding(folds))
        invariant spaces <==> SpaceBefore(rs, k, Folding({}))
        invariant indention ==> column > indent || (column == indent && spaces)
        decreases |value| - i
      {
        ghost var before := folds;
        CharacterAt(value, rs, k);
        ok, i, spaces, folds := WriteCharacter(value, i, spaces, allowBreaks, rs, k, folds);
        CallsRest(rs, k);
        if !ok { return; }
        WrittenMore(rs, k, Folding(before), Folding(folds), base);
        CallsMore(rs, k);
        k := k + 1;
      }
      WrittenAll(rs, k, Folding(folds));
      assert rs[..|rs|] == rs;
    }

    /** One character, escaped or not. */
    method WriteCharacter(value: seq<byte>, i: nat, spaces: bool, allowBreaks: bool,
                          ghost rs: seq<rune>, ghost k: nat, ghost folds: set<nat>)
      returns (ok: bool, next: nat, spaced: bool, ghost more: set<nat>)
      requires Valid() && value == EncodeAll(rs) && k < |rs| && i == OffsetOf(rs, k) && CharacterIs(value, rs, k)
      requires i < |value| && i + Width(value[i]) <= |value| && (value[0] == 0xEF ==> |value| >= 3)
      requires OffsetOf(rs, k + 1) <= |value|
      requires GoodLayout(rs, Folding(folds)) && k !in folds
      requires spaces <==> SpaceBefore(rs, k, Folding({}))
      requires indention ==> column > indent || (column == indent && spaces)
      modifies this`bufferPos, this`received, this`quota, this`column, this`whitespace, this`indention, buffer
      ensures Valid() && (!ok ==> quota == 0) && old(quota) <= quota + (indent + 10)
      ensures GoodLayout(rs, Folding(more)) && (more == folds || (allowBreaks && more == folds + {k}))
      ensures ok ==> next == OffsetOf(rs, k + 1) > i && next <= |value| && Out() == old(Out()) + Piece(rs, k, Folding(more))
      ensures ok ==> (spaced <==> SpaceBefore(rs, k + 1, Folding({})))
      ensures ok && indention ==> column > indent || (column == indent && spaced)
    {
      hide EncodeAll, Has, Encode, Escaped, GoodLayout, NeedsEscape, OffsetOf, EscapeText, Blanks, CharacterIs;
      NeedsEscapeIs(value, i, rs, k, Folding(folds));
      CharacterFacts(value, rs, k);
      if NeedsEscape(value, i, unicode) {
        CharacterHere(value, rs, k);
        ok, next := WriteEscape(value, i, rs[k]);
        spaced, more := false, folds;
      } else {
        ok, next, spaced, more := WriteRaw(value, i, spaces, allowBreaks, rs, k, folds);
      }
    }

    /** A character that needs no escape; a space beyond the preferred width may become a line break. */
    method WriteRaw(value: seq<byte>, i: nat, spaces: bool, allowBreaks: bool,
                    ghost rs: seq<rune>, ghost k: nat, ghost folds: set<nat>)
      returns (ok: bool, next: nat, spaced: bool, ghost more: set<nat>)
      requires Valid() && value == EncodeAll(rs) && k < |rs| && i == OffsetOf(rs, k) && CharacterIs(value, rs, k)
      requires GoodLayout(rs, Folding(folds)) && k !in folds && !EscapedAt(rs, k, Folding(folds))
      requires spaces <==> k > 0 && rs[k - 1] == 0x20 && !EscapedAt(rs, k - 1, Folding(folds))
      requires indention ==> column > indent || (column == indent && spaces)
      modifies this`bufferPos, this`received, this`quota, this`column, this`whitespace, this`indention, buffer
      ensures Valid() && (!ok ==> quota == 0) && old(quota) <= quota + (indent + 10)
      ensures GoodLayout(rs, Folding(more)) && (more == folds || (allowBreaks && more == folds + {k}))
      ensures ok ==> next == OffsetOf(rs, k + 1) && Out() == old(Out()) + Piece(rs, k, Folding(more))
      ensures ok ==> (spaced <==> rs[k] == 0x20)
      ensures ok && indention ==> column > indent || (column == indent && spaced)
    {
      hide EncodeAll, Has, Encode, Escaped, Blanks, CharacterIs;
      CharacterFacts(value, rs, k);
      more, spaced := folds, value[i] == 0x20;
      if value[i] == 0x20 {
        if allowBreaks && !spaces && column > bestWidth && i > 0 && i < |value| - 1 {
          more := folds + {k};
          assert GoodLayout(rs, Folding(more)) by { NotSpaced(rs, k, Folding(folds)); }
          ok := WriteIndent();
          next := i;
          if !ok { return; }
          if value[i + 1] == 0x20 {
            ok := Put(0x5C);
            if !ok { return; }
          }
          next := i + Width(value[i]);
        } else {
          ok, next := Write(value, i);
        }
      } else {
        ok, next := Write(value, i);
      }
    }
  }

  lemma Product(a: nat, b: nat, c: nat)
    requires a <= b
    ensures a * c <= b * c
  {
  }

  /** The test that sends a character to the escapes. */
  predicate NeedsEscape(value: seq<byte>, i: nat, unicode: bool)
    requires i < |value| && i + Width(value[i]) <= |value| && (value[0] == 0xEF ==> |value| >= 3)
  {
    || !IsPrintable(value, i) || (!unicode && value[i] > 0x7F)
    || (value[0] == 0xEF && value[1] == 0xBB && value[2] == 0xBF)
    || IsBreak(value, i) || value[i] == 0x22 || value[i] == 0x5C
  }

  /** Where character `k` starts. */
  function OffsetOf(rs: seq<rune>, k: nat): nat
    requires k <= |rs|
  {
    |EncodeAll(rs[..k])|
  }

  ghost predicate CharacterIs(value: seq<byte>, rs: seq<rune>, k: nat)
    requires k < |rs|
  {
    && Has(value, OffsetOf(rs, k), Encode(rs[k]))
    && OffsetOf(rs, k + 1) == OffsetOf(rs, k) + |Encode(rs[k])|
    && (k == 0 <==> OffsetOf(rs, k) == 0)
    && (k + 1 == |rs| <==> OffsetOf(rs, k + 1) == |value|)
    && (k + 1 < |rs| ==> Has(value, OffsetOf(rs, k + 1), Encode(rs[k + 1])))
  }

  lemma CharacterAt(value: seq<byte>, rs: seq<rune>, k: nat)
    requires value == EncodeAll(rs) && k <= |rs| && OffsetOf(rs, k) < |value|
    ensures k < |rs| && CharacterIs(value, rs, k)
    ensures var i := OffsetOf(rs, k); i + Width(value[i]) <= |value| && (value[0] == 0xEF ==> |value| >= 3)
    ensures OffsetOf(rs, k + 1) <= |value|
  {
    hide Has, Encode, EncodeAll, Width;
    assert rs[..|rs|] == rs;
    OffsetStep(value, rs, k);
    if k + 1 < |rs| {
      OffsetStep(value, rs, k + 1);
    }
    OffsetStart(value, rs, k);
    OctetsOf(value, OffsetOf(rs, k), rs[k]);
    FirstOctets(value, rs);
  }

  lemma OffsetStep(value: seq<byte>, rs: seq<rune>, k: nat)
    requires value == EncodeAll(rs) && k < |rs|
    ensures Has(value, OffsetOf(rs, k), Encode(rs[k])) && OffsetOf(rs, k + 1) == OffsetOf(rs, k) + |Encode(rs[k])|
    ensures OffsetOf(rs, k + 1) + |EncodeAll(rs[k + 1..])| == |value|
    ensures k + 1 < |rs| ==> EncodeAll(rs[k + 1..]) != []
  {
    hide Encode, EncodeAll, Has;
    var front, back := rs[..k], rs[k + 1..];
    EncodeOne(rs[k]);
    assert rs[..k + 1] == front + [rs[k]];
    EncodeAllAppend(front, [rs[k]]);
    assert rs == rs[..k + 1] + back;
    EncodeAllAppend(rs[..k + 1], back);
    Middle(EncodeAll(front), Encode(rs[k]), EncodeAll(back));
    if back != [] {
      EncodeSome(back);
    }
  }

  lemma EncodeOne(r: rune)
    ensures EncodeAll([r]) == Encode(r)
  {
    hide Encode;
    assert [r][1..] == [];
  }

  lemma EncodeSome(rs: seq<rune>)
    requires rs != []
    ensures EncodeAll(rs) != []
  {
    hide Encode;
  }

  lemma Middle(a: seq<byte>, m: seq<byte>, c: seq<byte>)
    ensures Has(a + m + c, |a|, m)
  {
    assert (a + m + c)[|a|..|a| + |m|] == m;
  }

  lemma OffsetStart(value: seq<byte>, rs: seq<rune>, k: nat)
    requires value == EncodeAll(rs) && k < |rs|
    ensures k == 0 <==> OffsetOf(rs, k) == 0
  {
    hide Encode;
    if k > 0 {
      assert rs[..k] != [];
    }
  }

  /** The first character, in full. */
  lemma FirstOctets(value: seq<byte>, rs: seq<rune>)
    requires value == EncodeAll(rs) && rs != []
    ensures value != [] && (value[0] == 0xEF ==> |value| >= 3)
    ensures (value[0] == 0xEF && value[1] == 0xBB && value[2] == 0xBF) <==> rs[0] == 0xFEFF
  {
    hide EncodeAll, Has, Encode;
    OffsetStep(value, rs, 0);
    WrittenStart(rs, Layout(false, [0x0A], 1, {}));
    OctetsOf(value, 0, rs[0]);
    BomIs(rs[0]);
    var s := Encode(rs[0]);
    if |s| == 3 {
      assert s == [s[0], s[1], s[2]];
    }
  }

  lemma BomIs(r: rune)
    ensures Encode(r) == [0xEF, 0xBB, 0xBF] <==> r == 0xFEFF
    ensures Encode(r)[0] == 0xEF ==> |Encode(r)| == 3
  {
    if Encode(r) == [0xEF, 0xBB, 0xBF] {
      EncodeDecodes(r);
      EncodeDecodes(0xFEFF);
      assert Encode(0xFEFF) == [0xEF, 0xBB, 0xBF];
    }
  }

  lemma CharacterFacts(value: seq<byte>, rs: seq<rune>, k: nat)
    requires k < |rs| && CharacterIs(value, rs, k)
    ensures OffsetOf(rs, k) < |value| && OffsetOf(rs, k + 1) == OffsetOf(rs, k) + |Encode(rs[k])| <= |value|
    ensures Width(value[OffsetOf(rs, k)]) == |Encode(rs[k])| && (value[OffsetOf(rs, k)] == 0x20 <==> rs[k] == 0x20)
    ensures value[OffsetOf(rs, k)..OffsetOf(rs, k + 1)] == Encode(rs[k])
    ensures k == 0 <==> OffsetOf(rs, k) == 0
    ensures rs[k] == 0x20 ==> |Encode(rs[k])| == 1
    ensures k + 1 == |rs| <==> OffsetOf(rs, k + 1) == |value|
    ensures k + 1 < |rs| && rs[k] == 0x20 ==>
              OffsetOf(rs, k) + 1 < |value| && (value[OffsetOf(rs, k) + 1] == 0x20 <==> rs[k + 1] == 0x20)
  {
    var i := OffsetOf(rs, k);
    BreaksAgree(value, i, rs[k]);
    HasIs(value, i, Encode(rs[k]));
    if k + 1 < |rs| {
      BreaksAgree(value, OffsetOf(rs, k + 1), rs[k + 1]);
    }
    hide Has, EncodeAll;
  }

  /** The test on octets says what the test on characters says. */
  lemma NeedsEscapeIs(value: seq<byte>, i: nat, rs: seq<rune>, k: nat, l: Layout)
    requires value == EncodeAll(rs) && k < |rs| && i == OffsetOf(rs, k) && CharacterIs(value, rs, k)
    requires i < |value| && i + Width(value[i]) <= |value| && (value[0] == 0xEF ==> |value| >= 3)
    ensures NeedsEscape(value, i, l.unicode) <==> EscapedAt(rs, k, l)
  {
    hide Has, EncodeAll, Encode, IsPrintable, PrintableRune, IsBreak, BreakRune, CharacterIs, OffsetOf;
    CharacterHere(value, rs, k);
    BreaksAgree(value, i, rs[k]);
    PrintablesAgree(value, i, rs[k]);
    FirstOctets(value, rs);
  }

  lemma CharacterHere(value: seq<byte>, rs: seq<rune>, k: nat)
    requires k < |rs| && CharacterIs(value, rs, k)
    ensures Has(value, OffsetOf(rs, k), Encode(rs[k]))
  {
  }

  /** Character `k` comes behind a space that is not escaped. */
  ghost predicate SpaceBefore(rs: seq<rune>, k: nat, l: Layout)
    requires k <= |rs|
  {
    k > 0 && rs[k - 1] == 0x20 && !EscapedAt(rs, k - 1, l)
  }

  /** What is written for the characters before `k`. */
  ghost function WrittenTo(rs: seq<rune>, k: nat, l: Layout): seq<byte>
    requires k <= |rs|
  {
    if k == 0 then [] else WrittenTo(rs, k - 1, l) + Piece(rs, k - 1, l)
  }

  lemma WrittenStart(rs: seq<rune>, l: Layout)
    requires l.indent > 0 && (l.lineBreak == [0x0A] || l.lineBreak == [0x0D] || l.lineBreak == [0x0D, 0x0A])
    ensures WrittenTo(rs, 0, l) == [] && (rs == [] ==> EncodeAll(rs) == [])
    ensures OffsetOf(rs, 0) == 0 && !SpaceBefore(rs, 0, l)
    ensures l.folds == {} ==> GoodLayout(rs, l)
  {
  }

  lemma {:induction false} FoldsLater(rs: seq<rune>, k: nat, l: Layout, m: Layout)
    requires k <= |rs| && m == l.(folds := m.folds) && forall f | 0 <= f < k :: f in l.folds <==> f in m.folds
    ensures WrittenTo(rs, k, l) == WrittenTo(rs, k, m)
  {
    hide EscapeText, Escaped, Encode, Blanks;
    if k > 0 {
      FoldsLater(rs, k - 1, l, m);
    }
  }

  lemma WrittenMore(rs: seq<rune>, k: nat, l: Layout, m: Layout, base: seq<byte>)
    requires k < |rs| && m == l.(folds := m.folds) && forall f | 0 <= f < k :: f in l.folds <==> f in m.folds
    ensures base + WrittenTo(rs, k, l) + Piece(rs, k, m) == base + WrittenTo(rs, k + 1, m)
  {
    FoldsLater(rs, k, l, m);
    hide Piece;
  }

  lemma {:induction false} WrittenSoFar(rs: seq<rune>, k: nat, l: Layout)
    requires k <= |rs|
    ensures WrittenTo(rs, k, l) + Written(rs, k, l) == Written(rs, 0, l)
  {
    hide Piece;
    if k > 0 {
      WrittenSoFar(rs, k - 1, l);
    }
  }

  lemma WrittenAll(rs: seq<rune>, k: nat, l: Layout)
    requires k <= |rs| && OffsetOf(rs, k) >= |EncodeAll(rs)|
    ensures k == |rs| && WrittenTo(rs, k, l) == Written(rs, 0, l)
  {
    if k < |rs| {
      OffsetStep(EncodeAll(rs), rs, k);
    }
    hide Piece;
    WrittenSoFar(rs, |rs|, l);
  }

  /** A space that does not follow a written space does not follow a space at all. */
  lemma NotSpaced(rs: seq<rune>, k: nat, l: Layout)
    requires 0 < k < |rs| && !EscapedAt(rs, k, l) && !(rs[k - 1] == 0x20 && !EscapedAt(rs, k - 1, l))
    ensures rs[k - 1] != 0x20
  {
  }

  /** The character at `value[i]`, and its width. */
  method DecodeAt(value: seq<byte>, i: nat, ghost r: rune) returns (w: nat, v: rune)
    requires Has(value, i, Encode(r))
    ensures w == |Encode(r)| && v == r
  {
    OctetsOf(value, i, r);
    EncodeDecodes(r);
    HasIs(value, i, Encode(r));
    hide Has, Encode, Decoded;
    w := Width(value[i]);
    var bits: nat := Lead(value[i]);
    DecodedFirst(value, i);
    for k := 1 to w
      invariant i + w <= |value| && bits == Decoded(value[i..i + k])
    {
      DecodedMore(value[i..i + k], value[i + k]);
      assert value[i..i + k] + [value[i + k]] == value[i..i + k + 1];
      bits := bits * 64 + value[i + k] % 64;
    }
    v := bits;
  }

  lemma DecodedFirst(b: seq<byte>, i: nat)
    requires i < |b|
    ensures Decoded(b[i..i + 1]) == Lead(b[i])
  {
  }

  /** `v` without its last `k` hexadecimal digits. */
  function Shift(v: nat, k: nat): nat {
    if k == 0 then v else Shift(v, k - 1) / 16
  }

  lemma HasIs(b: seq<byte>, i: nat, s: seq<byte>)
    requires Has(b, i, s)
    ensures i + |s| <= |b| && b[i..i + |s|] == s
  {
  }
}
