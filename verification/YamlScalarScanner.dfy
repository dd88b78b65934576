/** The scanner's loop over a double-quoted scalar. */
module YamlScalarScanner {
  import opened Bytes
  import opened YamlUtf8
  import opened YamlQuoted

  class Scanner {
    /** Decoded input, ending in NUL. */
    const buffer: seq<byte>
    var pos: nat
    var column: nat

    constructor (buffer: seq<byte>, pos: nat, column: nat)
      ensures this.buffer == buffer && this.pos == pos && this.column == column
    {
      this.buffer, this.pos, this.column := buffer, pos, column;
    }

    ghost predicate Valid()
      reads this
    {
      Complete(buffer) && pos < |buffer|
    }

    /** Step over one character. */
    method Skip()
      requires Valid() && buffer[pos] != 0 && Width(buffer[pos]) > 0
      modifies this
      ensures Valid() && pos == old(pos) + Width(buffer[old(pos)]) && column == old(column) + 1
    {
      column := column + 1;
      pos := pos + Width(buffer[pos]);
    }

    /** Copy one character; an octet that starts none is refused. */
    method Read(s: seq<byte>) returns (ok: bool, r: seq<byte>)
      requires Valid() && buffer[pos] != 0
      modifies this
      ensures Valid() && ok == (Width(buffer[old(pos)]) > 0) && old(pos) <= pos
      ensures ok ==> r == s + buffer[old(pos)..pos] && pos == old(pos) + Width(buffer[old(pos)]) && column == old(column) + 1
    {
      var w := Width(buffer[pos]);
      ok, r := w > 0, s;
      if ok {
        r := s + buffer[pos..pos + w];
        pos := pos + w;
        column := column + 1;
      }
    }

    /** Step over a line break. */
    method SkipLine()
      requires Valid() && IsBreak(buffer, pos)
      modifies this
      ensures Valid() && pos == old(pos) + BreakWidth(buffer, old(pos)) && column == 0
    {
      if buffer[pos] == 0x0D && buffer[pos + 1] == 0x0A {
        pos := pos + 2;
      } else {
        pos := pos + Width(buffer[pos]);
      }
      column := 0;
    }

    /** Copy a line break, normalised. */
    method ReadLineBreak(s: seq<byte>) returns (r: seq<byte>)
      requires Valid() && IsBreak(buffer, pos)
      modifies this
      ensures Valid() && pos == old(pos) + BreakWidth(buffer, old(pos)) && column == 0
      ensures r == s + BreakText(buffer, old(pos))
    {
      var b := buffer[pos];
      if b == 0x0D && buffer[pos + 1] == 0x0A {
        r := s + [0x0A];
        pos := pos + 2;
      } else if b == 0x0D || b == 0x0A {
        r := s + [0x0A];
        pos := pos + 1;
      } else if b == 0xC2 && buffer[pos + 1] == 0x85 {
        r := s + [0x0A];
        pos := pos + 2;
      } else {
        r := s + buffer[pos..pos + 3];
        pos := pos + 3;
      }
      column := 0;
    }

    /** The digits of a hexadecimal escape. */
    method ReadHex(n: nat) returns (ok: bool, value: nat)
      requires Valid()
      modifies this
      ensures Valid() && old(pos) <= pos
      ensures ok == (old(pos) + n <= |buffer| && AllHex(buffer[old(pos)..old(pos) + n]))
      ensures ok ==> value == HexValue(buffer[old(pos)..old(pos) + n]) && pos == old(pos) + n && column == old(column) + n
    {
      hide AllHex, HexValue;
      value := 0;
      ghost var start := pos;
      NoHex(buffer, pos);
      for k := 0 to n
        invariant pos == start && column == old(column) && pos + k < |buffer| && AllHex(buffer[pos..pos + k])
        invariant value == HexValue(buffer[pos..pos + k])
      {
        NextHex(buffer, pos, k, n);
        if !IsHex(buffer[pos + k]) {
          return false, value;
        }
        value := value * 16 + AsHex(buffer[pos + k]);
      }
      for k := 0 to n
        invariant pos == start + k && column == old(column) + k && start + n < |buffer| && AllHex(buffer[start..start + n])
      {
        HexAt(buffer, start, n, k);
        Skip();
      }
      ok := true;
    }

    /** An escape sequence at the current backslash. */
    method ScanEscape() returns (ok: bool, text: seq<byte>)
      requires Valid() && buffer[pos] == 0x5C
      modifies this
      ensures Valid()
      ensures var t := ReadEscape(buffer, old(pos)); ok == t.Good? && (ok ==> text == t.text && pos == t.end)
      ensures old(pos) <= pos
      ensures ok ==> pos > old(pos) && column == old(column) + (pos - old(pos))
    {
      hide HexValue, Encode;
      var escape := EscapeOf(buffer[pos + 1]);
      if escape.BadEscape? { return false, []; }
      Skip();
      Skip();
      match escape
      case Means(t) => return true, t;
      case Hex(n) =>
        var value;
        ok, value := ReadHex(n);
        if !ok { return false, []; }
        if (0xD800 <= value <= 0xDFFF) || value > 0x10FFFF { return false, []; }
        text := Encode(value);
    }

    /** The text of a double-quoted scalar, from its opening quote to behind its closing one. */
    method ScanDoubleQuoted() returns (ok: bool, s: seq<byte>)
      requires Valid() && buffer[pos] == 0x22
      modifies this
      ensures var t := ReadLine(buffer, old(pos) + 1, old(column) + 1);
              ok == t.Good? && (ok ==> s == t.text && pos == t.end + 1)
    {
      Skip();
      ghost var goal := ReadLine(buffer, pos, column);
      s := [];
      while true
        invariant Valid() && goal == Prepend(s, ReadLine(buffer, pos, column))
        decreases |buffer| - pos
      {
        ghost var start := pos;
        if AtIndicator(buffer, pos, column) || buffer[pos] == 0 { return false, s; }
        var done, leading;
        ok, done, leading, s := ScanWord(s, goal);
        if !ok { return; }
        if done { break; }
        s := ScanBlanks(leading, s, goal);
        assert pos > start;
      }
      Skip();
      ok := true;
    }

    /** Characters of a word; `done` at the closing quote, `leading` after an escaped line break. */
    method ScanWord(prefix: seq<byte>, ghost goal: Text) returns (ok: bool, done: bool, leading: bool, s: seq<byte>)
      requires Valid() && goal == Prepend(prefix, ReadWord(buffer, pos, column))
      modifies this
      ensures Valid() && old(pos) <= pos
      ensures !ok ==> goal == Bad
      ensures ok && done ==> buffer[pos] == 0x22 && goal == Good(s, pos)
      ensures ok && !done ==> goal == Prepend(s, ReadBlanks(buffer, pos, column, leading, [], [], []))
      ensures ok && !done && pos == old(pos) ==> IsBlankZ(buffer, pos)
    {
      hide ReadLine, ReadBlanks, ReadWord, ReadEscape, Encode, BreakWidth, IsBreak, Prepend;
      ok, done, leading, s := true, false, false, prefix;
      while !IsBlankZ(buffer, pos)
        invariant Valid() && old(pos) <= pos && goal == Prepend(s, ReadWord(buffer, pos, column))
        invariant ok && !done && !leading
        decreases |buffer| - pos
      {
        WordStep(buffer, pos, column, s);
        if buffer[pos] == 0x22 {
          return true, true, false, s;
        } else if buffer[pos] == 0x5C && IsBreak(buffer, pos + 1) {
          Skip();
          SkipLine();
          return true, buffer[pos] == 0x22, true, s;
        } else if buffer[pos] == 0x5C {
          var text;
          ok, text := ScanEscape();
          if !ok { return; }
          s := s + text;
        } else {
          ok, s := Read(s);
          if !ok { return; }
        }
      }
      WordEnds(buffer, pos, column);
    }

    /** Blanks and breaks between two words, and what they amount to. */
    method ScanBlanks(escaped: bool, prefix: seq<byte>, ghost goal: Text) returns (s: seq<byte>)
      requires Valid() && goal == Prepend(prefix, ReadBlanks(buffer, pos, column, escaped, [], [], []))
      modifies this
      ensures Valid() && old(pos) <= pos && goal == Prepend(s, ReadLine(buffer, pos, column))
      ensures IsBlank(buffer, old(pos)) || IsBreak(buffer, old(pos)) ==> old(pos) < pos
    {
      hide ReadLine, ReadWord, ReadBlanks, BreakText, BreakWidth, IsBreak, Prepend;
      var leading, spaces, firstBreak, laterBreaks := escaped, [], [], [];
      s := prefix;
      while IsBlank(buffer, pos) || IsBreak(buffer, pos)
        invariant Valid() && old(pos) <= pos
        invariant goal == Prepend(s, ReadBlanks(buffer, pos, column, leading, spaces, firstBreak, laterBreaks))
        decreases |buffer| - pos
      {
        BlanksStep(buffer, pos, column, leading, spaces, firstBreak, laterBreaks);
        if IsBlank(buffer, pos) {
          if !leading {
            var _, more := Read(spaces);
            spaces := more;
          } else {
            Skip();
          }
        } else if !leading {
          spaces := [];
          firstBreak := ReadLineBreak(firstBreak);
          leading := true;
        } else {
          laterBreaks := ReadLineBreak(laterBreaks);
        }
      }
      BlanksEnd(buffer, pos, column, leading, spaces, firstBreak, laterBreaks, s);
      if leading {
        if firstBreak != [] && firstBreak[0] == 0x0A {
          if laterBreaks == [] {
            s := s + [0x20];
          } else {
            s := s + laterBreaks;
          }
        } else {
          s := s + firstBreak + laterBreaks;
        }
      } else {
        s := s + spaces;
      }
    }
  }

  // ------------------------------------------------- digits of an escape

  lemma NoHex(b: seq<byte>, pos: nat)
    requires pos <= |b|
    ensures AllHex(b[pos..pos]) && HexValue(b[pos..pos]) == 0
  {
  }

  lemma NextHex(b: seq<byte>, pos: nat, k: nat, n: nat)
    requires k < n && pos + k < |b| && b[|b| - 1] == 0 && AllHex(b[pos..pos + k])
    ensures !IsHex(b[pos + k]) ==> pos + n > |b| || !AllHex(b[pos..pos + n])
    ensures IsHex(b[pos + k]) ==> pos + k + 1 < |b| && AllHex(b[pos..pos + k + 1])
    ensures IsHex(b[pos + k]) ==> HexValue(b[pos..pos + k + 1]) == HexValue(b[pos..pos + k]) * 16 + AsHex(b[pos + k])
  {
    var more := b[pos..pos + k + 1];
    assert more == b[pos..pos + k] + [b[pos + k]];
    assert more[..|more| - 1] == b[pos..pos + k];
    if pos + n <= |b| {
      assert b[pos..pos + n][k] == b[pos + k];
    }
  }

  lemma HexAt(b: seq<byte>, pos: nat, n: nat, k: nat)
    requires k < n && pos + n <= |b| && AllHex(b[pos..pos + n])
    ensures IsHex(b[pos + k])
  {
    assert b[pos..pos + n][k] == b[pos + k];
  }
}
