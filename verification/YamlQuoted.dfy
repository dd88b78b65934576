/** Double-quoted scalars: what the scanner makes of a text between quotes, and what
    the writer puts there.  The one undoes the other. */
module YamlQuoted {
  import opened Bytes
  import opened YamlUtf8

  // ---------------------------------------------------------------- reading

  /** The text up to the closing quote, and where the quote is. */
  datatype Text = Bad | Good(text: seq<byte>, end: nat)

  function Prepend(s: seq<byte>, t: Text): Text {
    match t
    case Bad => Bad
    case Good(text, end) => Good(s + text, end)
  }

  predicate IsHex(b: byte) {
    0x30 <= b <= 0x39 || 0x41 <= b <= 0x46 || 0x61 <= b <= 0x66
  }

  function AsHex(b: byte): nat
    requires IsHex(b)
  {
    if 0x41 <= b <= 0x46 then b - 0x41 + 10 else if 0x61 <= b <= 0x66 then b - 0x61 + 10 else b - 0x30
  }

  predicate AllHex(s: seq<byte>) {
    forall i | 0 <= i < |s| :: IsHex(s[i])
  }

  function HexValue(s: seq<byte>): nat
    requires AllHex(s)
  {
    if s == [] then 0 else HexValue(s[..|s| - 1]) * 16 + AsHex(s[|s| - 1])
  }

  predicate IsRune(v: nat) {
    v < 0xD800 || 0xE000 <= v <= 0x10FFFF
  }

  datatype Escape = BadEscape | Means(text: seq<byte>) | Hex(digits: nat)

  /** The character after a backslash. */
  function EscapeOf(b: byte): Escape {
    match b
    case 0x30 => Means([0x00])
    case 0x61 => Means([0x07])
    case 0x62 => Means([0x08])
    case 0x74 => Means([0x09])
    case 0x09 => Means([0x09])
    case 0x6E => Means([0x0A])
    case 0x76 => Means([0x0B])
    case 0x66 => Means([0x0C])
    case 0x72 => Means([0x0D])
    case 0x65 => Means([0x1B])
    case 0x20 => Means([0x20])
    case 0x22 => Means([0x22])
    case 0x27 => Means([0x27])
    case 0x5C => Means([0x5C])
    case 0x4E => Means([0xC2, 0x85])
    case 0x5F => Means([0xC2, 0xA0])
    case 0x4C => Means([0xE2, 0x80, 0xA8])
    case 0x50 => Means([0xE2, 0x80, 0xA9])
    case 0x78 => Hex(2)
    case 0x75 => Hex(4)
    case 0x55 => Hex(8)
    case _ => BadEscape
  }

  /** An escape sequence whose backslash is at `pos`: its text and where it ends. */
  function ReadEscape(b: seq<byte>, pos: nat): (t: Text)
    requires pos + 1 < |b|
    ensures t.Good? ==> t.end > pos
  {
    match EscapeOf(b[pos + 1])
    case BadEscape => Bad
    case Means(text) => Good(text, pos + 2)
    case Hex(n) =>
      if pos + 2 + n <= |b| && AllHex(b[pos + 2..pos + 2 + n]) && IsRune(HexValue(b[pos + 2..pos + 2 + n])) then
        Good(Encode(HexValue(b[pos + 2..pos + 2 + n])), pos + 2 + n)
      else Bad
  }

  /** Width of the line break at `pos`: a carriage return takes a following line feed along. */
  function BreakWidth(b: seq<byte>, pos: nat): (w: nat)
    requires pos < |b| && pos + Width(b[pos]) <= |b| && IsBreak(b, pos)
    ensures 1 <= w && pos + w <= |b|
  {
    if b[pos] == 0x0D && pos + 1 < |b| && b[pos + 1] == 0x0A then 2 else Width(b[pos])
  }

  /** What a line break is turned into: line feed, except that LS and PS are kept. */
  function BreakText(b: seq<byte>, pos: nat): (t: seq<byte>)
    requires pos < |b| && pos + Width(b[pos]) <= |b| && IsBreak(b, pos)
    ensures t != []
  {
    if b[pos] == 0xE2 then b[pos..pos + 3] else [0x0A]
  }

  /** Blanks and breaks between two words: `leading` once a break has been seen. */
  function Folded(leading: bool, spaces: seq<byte>, firstBreak: seq<byte>, laterBreaks: seq<byte>): seq<byte> {
    if !leading then spaces
    else if firstBreak != [] && firstBreak[0] == 0x0A then (if laterBreaks == [] then [0x20] else laterBreaks)
    else firstBreak + laterBreaks
  }

  /** A document indicator at the start of a line. */
  predicate AtIndicator(b: seq<byte>, pos: nat, column: nat)
    requires Complete(b) && pos < |b|
  {
    && column == 0
    && pos + 3 < |b|
    && (b[pos..pos + 3] == [0x2D, 0x2D, 0x2D] || b[pos..pos + 3] == [0x2E, 0x2E, 0x2E])
    && (b[pos + 3] != 0 ==> pos + 3 + Width(b[pos + 3]) <= |b|)
    && (b[pos + 3] == 0 || IsBlankZ(b, pos + 3))
  }

  /** Order in which the three reading states can follow each other at one place. */
  function Turn(b: seq<byte>, pos: nat, state: nat): nat
    requires pos < |b| && pos + Width(b[pos]) <= |b| && state < 3
  {
    if b[pos] == 0 then (if state == 0 then 0 else if state == 1 then 2 else 1)
    else if IsBlankZ(b, pos) then (if state == 0 then 2 else if state == 1 then 1 else 0)
    else (if state == 0 then 1 else if state == 1 then 0 else 2)
  }

  /** From the start of a word: no indicator, no end of input. */
  function ReadLine(b: seq<byte>, pos: nat, column: nat): Text
    requires Complete(b) && pos < |b|
    decreases |b| - pos, Turn(b, pos, 0)
  {
    if AtIndicator(b, pos, column) || b[pos] == 0 then Bad else ReadWord(b, pos, column)
  }

  /** Characters up to a blank, a break, or the closing quote. */
  function ReadWord(b: seq<byte>, pos: nat, column: nat): Text
    requires Complete(b) && pos < |b|
    decreases |b| - pos, Turn(b, pos, 1)
  {
    if IsBlankZ(b, pos) then ReadBlanks(b, pos, column, false, [], [], [])
    else if b[pos] == 0x22 then Good([], pos)
    else if b[pos] == 0x5C then
      if IsBreak(b, pos + 1) then
        var next := pos + 1 + BreakWidth(b, pos + 1);
        if next >= |b| then Bad
        else if b[next] == 0x22 then Good([], next)
        else ReadBlanks(b, next, 0, true, [], [], [])
      else
        match ReadEscape(b, pos)
        case Bad => Bad
        case Good(text, next) => if next >= |b| then Bad else Prepend(text, ReadWord(b, next, column + (next - pos)))
    else
      var w := Width(b[pos]);
      if w == 0 then Bad else Prepend(b[pos..pos + w], ReadWord(b, pos + w, column + 1))
  }

  /** Blanks and breaks up to the next word. */
  function ReadBlanks(b: seq<byte>, pos: nat, column: nat, leading: bool,
                      spaces: seq<byte>, firstBreak: seq<byte>, laterBreaks: seq<byte>): Text
    requires Complete(b) && pos < |b|
    decreases |b| - pos, Turn(b, pos, 2)
  {
    if IsBlank(b, pos) then
      if !leading then ReadBlanks(b, pos + 1, column + 1, leading, spaces + [b[pos]], firstBreak, laterBreaks)
      else ReadBlanks(b, pos + 1, column + 1, leading, spaces, firstBreak, laterBreaks)
    else if IsBreak(b, pos) then
      var next := pos + BreakWidth(b, pos);
      if next >= |b| then Bad
      else if !leading then ReadBlanks(b, next, 0, true, [], firstBreak + BreakText(b, pos), laterBreaks)
      else ReadBlanks(b, next, 0, true, spaces, firstBreak, laterBreaks + BreakText(b, pos))
    else
      Prepend(Folded(leading, spaces, firstBreak, laterBreaks), ReadLine(b, pos, column))
  }

  // ------------------------------------------------- one turn of each state

  lemma PrependPrepend(a: seq<byte>, c: seq<byte>, t: Text)
    ensures Prepend(a, Prepend(c, t)) == Prepend(a + c, t)
  {
    if t.Good? {
      assert a + (c + t.text) == (a + c) + t.text;
    }
  }

  lemma WordStep(b: seq<byte>, pos: nat, column: nat, s: seq<byte>)
    requires Complete(b) && pos < |b| && !IsBlankZ(b, pos)
    ensures b[pos] != 0 && pos + 1 < |b| && Width(b[pos]) + pos < |b|
    ensures b[pos] == 0x22 ==> Prepend(s, ReadWord(b, pos, column)) == Good(s, pos)
    ensures b[pos] == 0x5C && IsBreak(b, pos + 1) ==>
      var next := pos + 1 + BreakWidth(b, pos + 1);
      next < |b| ==>
        Prepend(s, ReadWord(b, pos, column))
          == (if b[next] == 0x22 then Good(s, next) else Prepend(s, ReadBlanks(b, next, 0, true, [], [], [])))
    ensures b[pos] == 0x5C && !IsBreak(b, pos + 1) ==>
      match ReadEscape(b, pos)
      case Bad => Prepend(s, ReadWord(b, pos, column)) == Bad
      case Good(text, next) => next < |b| ==>
        Prepend(s, ReadWord(b, pos, column)) == Prepend(s + text, ReadWord(b, next, column + (next - pos)))
    ensures b[pos] != 0x22 && b[pos] != 0x5C ==>
      Prepend(s, ReadWord(b, pos, column))
        == if Width(b[pos]) == 0 then Bad
           else Prepend(s + b[pos..pos + Width(b[pos])], ReadWord(b, pos + Width(b[pos]), column + 1))
  {
    hide ReadBlanks, ReadEscape, BreakWidth;
    if b[pos] == 0x5C && !IsBreak(b, pos + 1) {
      match ReadEscape(b, pos) {
        case Bad =>
        case Good(text, next) =>
          if next < |b| {
            PrependPrepend(s, text, ReadWord(b, next, column + (next - pos)));
          }
      }
    } else if b[pos] != 0x22 && b[pos] != 0x5C && Width(b[pos]) != 0 {
      PrependPrepend(s, b[pos..pos + Width(b[pos])], ReadWord(b, pos + Width(b[pos]), column + 1));
    }
  }

  lemma WordEnds(b: seq<byte>, pos: nat, column: nat)
    requires Complete(b) && pos < |b| && IsBlankZ(b, pos)
    ensures ReadWord(b, pos, column) == ReadBlanks(b, pos, column, false, [], [], [])
  {
    hide ReadBlanks;
  }

  lemma BlanksStep(b: seq<byte>, pos: nat, column: nat, leading: bool,
                   spaces: seq<byte>, firstBreak: seq<byte>, laterBreaks: seq<byte>)
    requires Complete(b) && pos < |b| && (IsBlank(b, pos) || IsBreak(b, pos))
    ensures b[pos] != 0 && Width(b[pos]) > 0
    ensures IsBlank(b, pos) ==> Width(b[pos]) == 1 && b[pos..pos + 1] == [b[pos]] && pos + 1 < |b|
    ensures IsBlank(b, pos) && !leading ==>
      ReadBlanks(b, pos, column, leading, spaces, firstBreak, laterBreaks)
        == ReadBlanks(b, pos + 1, column + 1, leading, spaces + [b[pos]], firstBreak, laterBreaks)
    ensures IsBlank(b, pos) && leading ==>
      ReadBlanks(b, pos, column, leading, spaces, firstBreak, laterBreaks)
        == ReadBlanks(b, pos + 1, column + 1, leading, spaces, firstBreak, laterBreaks)
    ensures !IsBlank(b, pos) && pos + BreakWidth(b, pos) < |b| && !leading ==>
      ReadBlanks(b, pos, column, leading, spaces, firstBreak, laterBreaks)
        == ReadBlanks(b, pos + BreakWidth(b, pos), 0, true, [], firstBreak + BreakText(b, pos), laterBreaks)
    ensures !IsBlank(b, pos) && pos + BreakWidth(b, pos) < |b| && leading ==>
      ReadBlanks(b, pos, column, leading, spaces, firstBreak, laterBreaks)
        == ReadBlanks(b, pos + BreakWidth(b, pos), 0, true, spaces, firstBreak, laterBreaks + BreakText(b, pos))
  {
    hide ReadLine, BreakText, BreakWidth;
  }

  lemma BlanksEnd(b: seq<byte>, pos: nat, column: nat, leading: bool,
                  spaces: seq<byte>, firstBreak: seq<byte>, laterBreaks: seq<byte>, s: seq<byte>)
    requires Complete(b) && pos < |b| && !IsBlank(b, pos) && !IsBreak(b, pos)
    ensures Prepend(s, ReadBlanks(b, pos, column, leading, spaces, firstBreak, laterBreaks))
      == Prepend(s + Folded(leading, spaces, firstBreak, laterBreaks), ReadLine(b, pos, column))
    ensures s + firstBreak + laterBreaks == s + (firstBreak + laterBreaks)
  {
    hide ReadLine;
    PrependPrepend(s, Folded(leading, spaces, firstBreak, laterBreaks), ReadLine(b, pos, column));
  }

  // ---------------------------------------------------- what reading comes to

  function Feeds(n: nat): seq<byte> {
    seq(n, i => 0x0A)
  }

  /** Lines are folded: one line feed between two words is a space, each further one stays. */
  lemma {:induction false} FeedsFold(b: seq<byte>, pos: nat, column: nat, n: nat)
    requires Complete(b) && 0 < n && pos + n < |b| && Has(b, pos, Feeds(n))
    requires !IsBlank(b, pos + n) && !IsBreak(b, pos + n)
    ensures ReadBlanks(b, pos, column, false, [], [], []) == Prepend(if n == 1 then [0x20] else Feeds(n - 1), ReadLine(b, pos + n, 0))
  {
    hide ReadLine, ReadBlanks, Complete, Has, Feeds, IsBlank, IsBreak, BreakWidth, BreakText, Prepend;
    FeedAt(b, pos, n, 0);
    BlanksStep(b, pos, column, false, [], [], []);
    FeedsLater(b, pos + 1, pos + n, n - 1, []);
    NoFeeds(n - 1);
  }

  lemma {:induction false} NoFeeds(n: nat)
    ensures [] + [0x0A] == [0x0A] && [] + Feeds(n) == Feeds(n) && (n == 0 <==> Feeds(n) == [])
  {
  }

  lemma {:induction false} FeedAt(b: seq<byte>, pos: nat, n: nat, k: nat)
    requires Complete(b) && pos + n < |b| && Has(b, pos, Feeds(n)) && k < n
    ensures b[pos + k] == 0x0A && pos + k + Width(b[pos + k]) <= |b| && IsBreak(b, pos + k) && !IsBlank(b, pos + k)
    ensures BreakWidth(b, pos + k) == 1 && BreakText(b, pos + k) == [0x0A]
    ensures Has(b, pos + k + 1, Feeds(n - k - 1))
  {
    assert b[pos..pos + n][k] == b[pos + k];
    assert b[pos + k + 1..pos + n] == b[pos..pos + n][k + 1..];
    assert Feeds(n)[k + 1..] == Feeds(n - k - 1);
  }

  lemma {:induction false} FeedsLater(b: seq<byte>, pos: nat, end: nat, n: nat, later: seq<byte>)
    requires Complete(b) && end == pos + n && end < |b| && Has(b, pos, Feeds(n))
    requires !IsBlank(b, end) && !IsBreak(b, end)
    ensures ReadBlanks(b, pos, 0, true, [], [0x0A], later)
      == Prepend(if later + Feeds(n) == [] then [0x20] else later + Feeds(n), ReadLine(b, end, 0))
    decreases n
  {
    hide ReadLine, ReadBlanks, Complete, Has, Feeds, IsBlank, IsBreak, BreakWidth, BreakText, Prepend;
    if n == 0 {
      NoFeeds(0);
      assert later + Feeds(0) == later;
      BlanksEnd(b, end, 0, true, [], [0x0A], later, []);
      NothingBefore(ReadBlanks(b, pos, 0, true, [], [0x0A], later));
      assert [] + Folded(true, [], [0x0A], later) == Folded(true, [], [0x0A], later);
    } else {
      FeedAt(b, pos, n, 0);
      BlanksStep(b, pos, 0, true, [], [0x0A], later);
      FeedsLater(b, pos + 1, end, n - 1, later + [0x0A]);
      FeedsOn(later, n);
    }
  }

  lemma {:induction false} FeedsOn(later: seq<byte>, n: nat)
    requires n > 0
    ensures later + [0x0A] + Feeds(n - 1) == later + Feeds(n)
  {
    assert [0x0A] + Feeds(n - 1) == Feeds(n);
    assert later + ([0x0A] + Feeds(n - 1)) == later + [0x0A] + Feeds(n - 1);
  }

  lemma NothingBefore(t: Text)
    ensures Prepend([], t) == t
  {
    if t.Good? {
      assert [] + t.text == t.text;
    }
  }

  /** Upper-case and lower-case digits read alike. */
  lemma {:induction false} HexAnyCase(s: seq<byte>, t: seq<byte>)
    requires |s| == |t| && AllHex(s)
    requires forall i | 0 <= i < |s| :: t[i] == s[i] || (0x41 <= s[i] <= 0x46 && t[i] == s[i] + 0x20)
    ensures AllHex(t) && HexValue(t) == HexValue(s)
    decreases |s|
  {
    if s != [] {
      HexAnyCase(s[..|s| - 1], t[..|t| - 1]);
    }
  }

  // ---------------------------------------------------------------- writing

  /** Must the character be written as an escape sequence?  `bom`: the whole value
      starts with a byte order mark, and then everything is escaped. */
  predicate Escaped(r: rune, unicode: bool, bom: bool) {
    !PrintableRune(r) || (!unicode && r > 0x7F) || bom || BreakRune(r) || r == 0x22 || r == 0x5C
  }

  function HexDigit(d: nat): byte
    requires d < 16
  {
    if d < 10 then 0x30 + d else 0x41 + d - 10
  }

  function HexDigits(v: nat, n: nat): (s: seq<byte>)
    ensures |s| == n
  {
    if n == 0 then [] else HexDigits(v / 16, n - 1) + [HexDigit(v % 16)]
  }

  /** Escapes with a letter of their own. */
  function ShortEscape(r: rune): seq<byte> {
    match r
    case 0x00 => [0x30]
    case 0x07 => [0x61]
    case 0x08 => [0x62]
    case 0x09 => [0x74]
    case 0x0A => [0x6E]
    case 0x0B => [0x76]
    case 0x0C => [0x66]
    case 0x0D => [0x72]
    case 0x1B => [0x65]
    case 0x22 => [0x22]
    case 0x5C => [0x5C]
    case 0x85 => [0x4E]
    case 0xA0 => [0x5F]
    case 0x2028 => [0x4C]
    case 0x2029 => [0x50]
    case _ => []
  }

  function LongEscape(r: rune): seq<byte> {
    if r <= 0xFF then [0x78] + HexDigits(r, 2)
    else if r <= 0xFFFF then [0x75] + HexDigits(r, 4)
    else [0x55] + HexDigits(r, 8)
  }

  function EscapeText(r: rune): seq<byte> {
    [0x5C] + if ShortEscape(r) != [] then ShortEscape(r) else LongEscape(r)
  }

  /** How the writer lays out a value: characters above 127 allowed or not, the line
      break, the indentation of continuation lines, and the spaces that become breaks. */
  datatype Layout = Layout(unicode: bool, lineBreak: seq<byte>, indent: nat, folds: set<nat>)

  predicate HasBom(rs: seq<rune>) {
    rs != [] && rs[0] == 0xFEFF
  }

  predicate EscapedAt(rs: seq<rune>, k: nat, l: Layout)
    requires k < |rs|
  {
    Escaped(rs[k], l.unicode, HasBom(rs))
  }

  predicate GoodLayout(rs: seq<rune>, l: Layout) {
    && (l.lineBreak == [0x0A] || l.lineBreak == [0x0D] || l.lineBreak == [0x0D, 0x0A])
    && l.indent > 0
    && forall k | k in l.folds ::
         0 < k < |rs| - 1 && rs[k] == 0x20 && !EscapedAt(rs, k, l) && rs[k - 1] != 0x20
  }

  function Blanks(n: nat): (s: seq<byte>)
    ensures |s| == n
  {
    seq(n, i => 0x20)
  }

  /** What is written for character `k`; a fold in front of a space protects it with a backslash. */
  function Piece(rs: seq<rune>, k: nat, l: Layout): seq<byte>
    requires k < |rs|
  {
    if EscapedAt(rs, k, l) then EscapeText(rs[k])
    else if rs[k] == 0x20 && k in l.folds then
      l.lineBreak + Blanks(l.indent) + (if k + 1 < |rs| && rs[k + 1] == 0x20 then [0x5C] else [])
    else Encode(rs[k])
  }

  /** The text between the quotes, from character `k` on. */
  function Written(rs: seq<rune>, k: nat, l: Layout): seq<byte>
    requires k <= |rs|
    decreases |rs| - k
  {
    if k == |rs| then [] else Piece(rs, k, l) + Written(rs, k + 1, l)
  }

  // ------------------------------------------------------------- round trip

  lemma HasSplit(b: seq<byte>, i: nat, x: seq<byte>, y: seq<byte>)
    requires Has(b, i, x + y)
    ensures Has(b, i, x) && Has(b, i + |x|, y)
  {
    assert b[i..i + |x|] == (x + y)[..|x|];
    assert b[i + |x|..i + |x| + |y|] == (x + y)[|x|..];
  }

  lemma HasAt(b: seq<byte>, i: nat, x: seq<byte>, k: nat)
    requires Has(b, i, x) && k < |x|
    ensures i + k < |b| && b[i + k] == x[k]
  {
    assert b[i..i + |x|][k] == b[i + k];
  }

  function Pow16(n: nat): nat {
    if n == 0 then 1 else 16 * Pow16(n - 1)
  }

  lemma {:induction false} HexRoundTrip(v: nat, n: nat)
    requires v < Pow16(n)
    ensures AllHex(HexDigits(v, n)) && HexValue(HexDigits(v, n)) == v
  {
    if n > 0 {
      HexRoundTrip(v / 16, n - 1);
      var s := HexDigits(v, n);
      assert s[..n - 1] == HexDigits(v / 16, n - 1);
      assert s[n - 1] == HexDigit(v % 16);
    }
  }

  lemma HexEscapeRead(b: seq<byte>, pos: nat, r: rune, letter: byte, n: nat)
    requires Has(b, pos, [0x5C, letter] + HexDigits(r, n)) && EscapeOf(letter) == Hex(n) && r < Pow16(n)
    ensures pos + 1 < |b| && ReadEscape(b, pos) == Good(Encode(r), pos + 2 + n)
  {
    hide HexDigits, HexValue, AllHex, Pow16, Encode, EscapeOf;
    HasSplit(b, pos, [0x5C, letter], HexDigits(r, n));
    HasAt(b, pos, [0x5C, letter], 1);
    HexRoundTrip(r, n);
  }

  lemma LongEscapeRead(b: seq<byte>, pos: nat, r: rune)
    requires Has(b, pos, [0x5C] + LongEscape(r)) && pos + 1 < |b|
    ensures ReadEscape(b, pos) == Good(Encode(r), pos + 1 + |LongEscape(r)|)
  {
    hide HexDigits, Pow16, Encode, ReadEscape;
    Powers();
    var letter, n := if r <= 0xFF then 0x78 else if r <= 0xFFFF then 0x75 else 0x55, if r <= 0xFF then 2 else if r <= 0xFFFF then 4 else 8;
    assert [0x5C] + LongEscape(r) == [0x5C, letter] + HexDigits(r, n);
    HexEscapeRead(b, pos, r, letter, n);
  }

  lemma Powers()
    ensures Pow16(2) == 0x100 && Pow16(4) == 0x10000 && Pow16(8) == 0x1_0000_0000
  {
    assert Pow16(3) == 16 * Pow16(2);
    assert Pow16(5) == 16 * Pow16(4);
    assert Pow16(6) == 16 * Pow16(5);
    assert Pow16(7) == 16 * Pow16(6);
  }

  lemma ShortEscapeRead(b: seq<byte>, pos: nat, r: rune)
    requires ShortEscape(r) != [] && Has(b, pos, [0x5C] + ShortEscape(r))
    ensures |ShortEscape(r)| == 1 && pos + 1 < |b|
    ensures ReadEscape(b, pos) == Good(Encode(r), pos + 2)
  {
    HasAt(b, pos, [0x5C] + ShortEscape(r), 1);
    hide Has;
  }

  /** Every escape sequence reads back as the character it was written for. */
  lemma EscapeRead(b: seq<byte>, pos: nat, r: rune)
    requires Complete(b) && Has(b, pos, EscapeText(r)) && pos < |b| && b[pos] == 0x5C
    ensures pos + 1 < |b| && !IsBreak(b, pos + 1)
    ensures ReadEscape(b, pos) == Good(Encode(r), pos + |EscapeText(r)|)
  {
    hide Complete, LongEscape, ReadEscape, Encode;
    LongStarts(r);
    HasAt(b, pos, EscapeText(r), 1);
    if ShortEscape(r) != [] {
      ShortEscapeRead(b, pos, r);
    } else {
      LongEscapeRead(b, pos, r);
    }
  }

  lemma LongStarts(r: rune)
    ensures LongEscape(r) != [] && LongEscape(r)[0] in {0x78, 0x75, 0x55}
  {
  }

  /** A character written as itself is none of those that end or interrupt a word. */
  lemma RawStarts(b: seq<byte>, pos: nat, r: rune, unicode: bool, bom: bool)
    requires Has(b, pos, Encode(r)) && !Escaped(r, unicode, bom) && r != 0x20
    ensures pos < |b| && pos + Width(b[pos]) <= |b| && Width(b[pos]) == |Encode(r)| && b[pos..pos + |Encode(r)|] == Encode(r)
    ensures !IsBlankZ(b, pos) && b[pos] != 0x22 && b[pos] != 0x5C && b[pos] != 0
  {
    BreaksAgree(b, pos, r);
    hide Encode;
    assert r >= 0x80 ==> b[pos] >= 0x80;
  }

  /** Indentation of a continuation line is dropped. */
  lemma {:induction false} IndentRead(b: seq<byte>, pos: nat, column: nat, n: nat)
    requires Complete(b) && Has(b, pos, Blanks(n)) && pos + n < |b|
    ensures ReadBlanks(b, pos, column, true, [], [0x0A], []) == ReadBlanks(b, pos + n, column + n, true, [], [0x0A], [])
    decreases n
  {
    if n > 0 {
      HasAt(b, pos, Blanks(n), 0);
      assert Blanks(n) == [0x20] + Blanks(n - 1);
      HasSplit(b, pos, [0x20], Blanks(n - 1));
      hide Has, ReadLine, ReadWord, Folded;
      IndentRead(b, pos + 1, column + 1, n - 1);
    }
  }

  /** What stands at character `k` is not a blank unless it is an unfolded or folded space. */
  lemma PieceStarts(b: seq<byte>, pos: nat, rs: seq<rune>, k: nat, l: Layout)
    requires k < |rs| && Has(b, pos, Piece(rs, k, l)) && (EscapedAt(rs, k, l) || rs[k] != 0x20)
    ensures pos < |b| && pos + Width(b[pos]) <= |b| && !IsBlankZ(b, pos)
  {
    if EscapedAt(rs, k, l) {
      HasAt(b, pos, Piece(rs, k, l), 0);
    } else {
      RawStarts(b, pos, rs[k], l.unicode, HasBom(rs));
    }
    hide Encode;
  }

  /** Reading on inside a word gives the rest of the value. */
  lemma {:induction false} WordRead(b: seq<byte>, pos: nat, column: nat, rs: seq<rune>, k: nat, l: Layout)
    requires Complete(b) && GoodLayout(rs, l) && k <= |rs| && column > 0
    requires Has(b, pos, Written(rs, k, l) + [0x22]) && pos < |b|
    ensures ReadWord(b, pos, column) == Good(EncodeAll(rs[k..]), pos + |Written(rs, k, l)|)
    decreases |rs| - k, if k < |rs| && rs[k] == 0x20 && !EscapedAt(rs, k, l) then 1 else 0
  {
    if k == |rs| {
      HasAt(b, pos, [0x22], 0) by { assert Written(rs, k, l) + [0x22] == [0x22]; }
    } else {
      WrittenSplit(b, pos, rs, k, l);
      if EscapedAt(rs, k, l) {
        EscapedWordRead(b, pos, column, rs, k, l);
      } else if rs[k] == 0x20 {
        BlanksRead(b, pos, column, rs, k, l, []);
        BlankStarts(b, pos, rs, k, l);
        assert [] + EncodeAll(rs[k..]) == EncodeAll(rs[k..]);
        hide ReadBlanks, ReadLine, Has, Written, Piece;
      } else {
        RawWordRead(b, pos, column, rs, k, l);
      }
    }
  }

  lemma WrittenSplit(b: seq<byte>, pos: nat, rs: seq<rune>, k: nat, l: Layout)
    requires k < |rs| && Has(b, pos, Written(rs, k, l) + [0x22])
    ensures Has(b, pos, Piece(rs, k, l)) && Has(b, pos + |Piece(rs, k, l)|, Written(rs, k + 1, l) + [0x22])
    ensures |Written(rs, k, l)| == |Piece(rs, k, l)| + |Written(rs, k + 1, l)|
    ensures pos + |Piece(rs, k, l)| < |b|
  {
    hide Has, Piece;
    assert Written(rs, k, l) + [0x22] == Piece(rs, k, l) + (Written(rs, k + 1, l) + [0x22]);
    HasSplit(b, pos, Piece(rs, k, l), Written(rs, k + 1, l) + [0x22]);
    HasAt(b, pos + |Piece(rs, k, l)|, Written(rs, k + 1, l) + [0x22], 0);
  }

  lemma {:induction false} EscapedWordRead(b: seq<byte>, pos: nat, column: nat, rs: seq<rune>, k: nat, l: Layout)
    requires Complete(b) && GoodLayout(rs, l) && k < |rs| && column > 0 && EscapedAt(rs, k, l)
    requires Has(b, pos, Piece(rs, k, l)) && Has(b, pos + |Piece(rs, k, l)|, Written(rs, k + 1, l) + [0x22])
    requires |Written(rs, k, l)| == |Piece(rs, k, l)| + |Written(rs, k + 1, l)| && pos + |Piece(rs, k, l)| < |b|
    ensures ReadWord(b, pos, column) == Good(EncodeAll(rs[k..]), pos + |Written(rs, k, l)|)
    decreases |rs| - k, 0, 0
  {
    hide Encode, EscapeText, Escaped, GoodLayout, Written, ReadBlanks, ReadEscape, Has;
    EscapeStarts(rs[k]);
    HasAt(b, pos, EscapeText(rs[k]), 0);
    EscapeRead(b, pos, rs[k]);
    var next := pos + |EscapeText(rs[k])|;
    WordRead(b, next, column + (next - pos), rs, k + 1, l);
    assert rs[k..][1..] == rs[k + 1..];
  }

  lemma EscapeStarts(r: rune)
    ensures |EscapeText(r)| > 1 && EscapeText(r)[0] == 0x5C
  {
    LongStarts(r);
    hide LongEscape;
  }

  lemma {:induction false} RawWordRead(b: seq<byte>, pos: nat, column: nat, rs: seq<rune>, k: nat, l: Layout)
    requires Complete(b) && GoodLayout(rs, l) && k < |rs| && column > 0 && !EscapedAt(rs, k, l) && rs[k] != 0x20
    requires Has(b, pos, Piece(rs, k, l)) && Has(b, pos + |Piece(rs, k, l)|, Written(rs, k + 1, l) + [0x22])
    requires |Written(rs, k, l)| == |Piece(rs, k, l)| + |Written(rs, k + 1, l)| && pos + |Piece(rs, k, l)| < |b|
    ensures ReadWord(b, pos, column) == Good(EncodeAll(rs[k..]), pos + |Written(rs, k, l)|)
    decreases |rs| - k, 0, 0
  {
    hide Encode, Escaped, GoodLayout, Written, ReadBlanks, ReadEscape, Has, IsBlankZ, HasBom;
    RawStarts(b, pos, rs[k], l.unicode, HasBom(rs));
    WordRead(b, pos + |Encode(rs[k])|, column + 1, rs, k + 1, l);
    assert rs[k..][1..] == rs[k + 1..];
  }

  /** A space, folded or not, starts with a blank or a break. */
  lemma BlankStarts(b: seq<byte>, pos: nat, rs: seq<rune>, k: nat, l: Layout)
    requires k < |rs| && GoodLayout(rs, l) && Has(b, pos, Piece(rs, k, l)) && !EscapedAt(rs, k, l) && rs[k] == 0x20
    ensures pos < |b| && pos + Width(b[pos]) <= |b| && IsBlankZ(b, pos)
    ensures k in l.folds ==> IsBreak(b, pos) && b[pos] == l.lineBreak[0]
    ensures k !in l.folds ==> b[pos] == 0x20 && |Piece(rs, k, l)| == 1
  {
    HasAt(b, pos, Piece(rs, k, l), 0);
    assert k !in l.folds ==> Piece(rs, k, l) == Encode(0x20) == [0x20];
    assert k in l.folds ==> Piece(rs, k, l)[0] == l.lineBreak[0];
    hide Has, Piece;
  }

  /** Reading on between words: `spaces` have been collected on the way. */
  lemma {:induction false} BlanksRead(b: seq<byte>, pos: nat, column: nat, rs: seq<rune>, k: nat, l: Layout, spaces: seq<byte>)
    requires Complete(b) && GoodLayout(rs, l) && k <= |rs| && column > 0
    requires Has(b, pos, Written(rs, k, l) + [0x22]) && pos < |b|
    requires k in l.folds ==> spaces == []
    ensures ReadBlanks(b, pos, column, false, spaces, [], []) == Good(spaces + EncodeAll(rs[k..]), pos + |Written(rs, k, l)|)
    decreases |rs| - k, if k < |rs| && rs[k] == 0x20 && !EscapedAt(rs, k, l) then 0 else 1
  {
    hide ReadWord, ReadLine, ReadBlanks, Has, Written, Piece, Escaped, GoodLayout;
    if k == |rs| {
      ValueEnds(b, pos, rs, l);
      WordAfterBlanks(b, pos, column, spaces);
      WordRead(b, pos, column, rs, k, l);
    } else {
      WrittenSplit(b, pos, rs, k, l);
      if EscapedAt(rs, k, l) || rs[k] != 0x20 {
        PieceStarts(b, pos, rs, k, l);
        WordRead(b, pos, column, rs, k, l);
        WordAfterBlanks(b, pos, column, spaces);
      } else if k !in l.folds {
        SpaceRead(b, pos, column, rs, k, l, spaces);
      } else {
        FoldRead(b, pos, column, rs, k, l);
        assert [] + EncodeAll(rs[k..]) == EncodeAll(rs[k..]);
      }
    }
  }

  lemma ValueEnds(b: seq<byte>, pos: nat, rs: seq<rune>, l: Layout)
    requires Complete(b) && Has(b, pos, Written(rs, |rs|, l) + [0x22])
    ensures pos < |b| && !IsBlankZ(b, pos)
  {
    HasAt(b, pos, [0x22], 0) by { assert Written(rs, |rs|, l) + [0x22] == [0x22]; }
  }

  lemma WordAfterBlanks(b: seq<byte>, pos: nat, column: nat, spaces: seq<byte>)
    requires Complete(b) && pos < |b| && column > 0 && !IsBlankZ(b, pos)
    ensures ReadBlanks(b, pos, column, false, spaces, [], []) == Prepend(spaces, ReadWord(b, pos, column))
  {
    hide ReadWord;
  }

  lemma {:induction false} SpaceRead(b: seq<byte>, pos: nat, column: nat, rs: seq<rune>, k: nat, l: Layout, spaces: seq<byte>)
    requires Complete(b) && GoodLayout(rs, l) && k < |rs| && column > 0
    requires rs[k] == 0x20 && !EscapedAt(rs, k, l) && k !in l.folds
    requires Has(b, pos, Piece(rs, k, l)) && Has(b, pos + |Piece(rs, k, l)|, Written(rs, k + 1, l) + [0x22])
    requires |Written(rs, k, l)| == |Piece(rs, k, l)| + |Written(rs, k + 1, l)| && pos + |Piece(rs, k, l)| < |b|
    ensures ReadBlanks(b, pos, column, false, spaces, [], []) == Good(spaces + EncodeAll(rs[k..]), pos + |Written(rs, k, l)|)
    decreases |rs| - k, 0, 0
  {
    hide ReadWord, ReadLine, Has, Written, Piece, Escaped;
    BlankStarts(b, pos, rs, k, l);
    BlanksRead(b, pos + 1, column + 1, rs, k + 1, l, spaces + [0x20]);
    assert rs[k..][1..] == rs[k + 1..];
    assert EncodeAll(rs[k..]) == [0x20] + EncodeAll(rs[k + 1..]);
    assert spaces + ([0x20] + EncodeAll(rs[k + 1..])) == spaces + [0x20] + EncodeAll(rs[k + 1..]);
  }

  /** A folded space: the break and the indentation read back as one space. */
  lemma {:induction false} FoldRead(b: seq<byte>, pos: nat, column: nat, rs: seq<rune>, k: nat, l: Layout)
    requires Complete(b) && GoodLayout(rs, l) && k < |rs| && column > 0 && k in l.folds && !EscapedAt(rs, k, l)
    requires Has(b, pos, Piece(rs, k, l)) && Has(b, pos + |Piece(rs, k, l)|, Written(rs, k + 1, l) + [0x22])
    requires |Written(rs, k, l)| == |Piece(rs, k, l)| + |Written(rs, k + 1, l)| && pos + |Piece(rs, k, l)| < |b|
    ensures ReadBlanks(b, pos, column, false, [], [], []) == Good(EncodeAll(rs[k..]), pos + |Written(rs, k, l)|)
    decreases |rs| - k, 0, 0
  {
    hide ReadWord, ReadLine, ReadBlanks, Has, Written, Escaped, EncodeAll, GoodLayout;
    var guard := if k + 1 < |rs| && rs[k + 1] == 0x20 then [0x5C] else [];
    var at := pos + |l.lineBreak| + l.indent;
    FoldIs(rs, k, l);
    HasSplit(b, pos, l.lineBreak + Blanks(l.indent), guard);
    hide Piece;
    LineBreakRead(b, pos, column, l, at);
    SpaceEncoded(rs, k);
    if guard == [] {
      AfterFold(b, at, rs, k, l);
    } else {
      AfterGuardedFold(b, at, rs, k, l);
    }
  }

  lemma FoldIs(rs: seq<rune>, k: nat, l: Layout)
    requires GoodLayout(rs, l) && k in l.folds
    ensures k + 1 < |rs| && rs[k] == 0x20 && !EscapedAt(rs, k, l) && l.indent > 0
    ensures l.lineBreak == [0x0A] || l.lineBreak == [0x0D] || l.lineBreak == [0x0D, 0x0A]
    ensures rs[k + 1] == 0x20 ==> k + 1 !in l.folds && !EscapedAt(rs, k + 1, l)
  {
  }

  lemma {:induction false} AfterFold(b: seq<byte>, at: nat, rs: seq<rune>, k: nat, l: Layout)
    requires Complete(b) && GoodLayout(rs, l) && k in l.folds && k + 1 < |rs| && rs[k + 1] != 0x20 && l.indent > 0
    requires Has(b, at, Written(rs, k + 1, l) + [0x22]) && at < |b|
    ensures ReadBlanks(b, at, l.indent, true, [], [0x0A], [])
         == Good([0x20] + EncodeAll(rs[k + 1..]), at + |Written(rs, k + 1, l)|)
    decreases |rs| - k - 1, 2
  {
    hide ReadWord, ReadLine, ReadBlanks, Has, Written, Escaped, EncodeAll, GoodLayout, Piece;
    WrittenSplit(b, at, rs, k + 1, l);
    PieceStarts(b, at, rs, k + 1, l);
    BreakRead(b, at, l.indent);
    WordRead(b, at, l.indent, rs, k + 1, l);
  }

  lemma {:induction false} AfterGuardedFold(b: seq<byte>, at: nat, rs: seq<rune>, k: nat, l: Layout)
    requires Complete(b) && GoodLayout(rs, l) && k in l.folds && k + 1 < |rs| && rs[k + 1] == 0x20 && l.indent > 0
    requires Has(b, at, [0x5C]) && Has(b, at + 1, Written(rs, k + 1, l) + [0x22]) && at + 1 < |b|
    ensures ReadBlanks(b, at, l.indent, true, [], [0x0A], [])
         == Good([0x20] + EncodeAll(rs[k + 1..]), at + 1 + |Written(rs, k + 1, l)|)
    decreases |rs| - k - 1, 2
  {
    hide ReadWord, ReadLine, ReadBlanks, Has, Written, Escaped, EncodeAll, GoodLayout, Piece;
    FoldIs(rs, k, l);
    HasAt(b, at, [0x5C], 0);
    BreakRead(b, at, l.indent);
    WrittenSplit(b, at + 1, rs, k + 1, l);
    BlankStarts(b, at + 1, rs, k + 1, l);
    GuardRead(b, at, l.indent);
    WordRead(b, at + 2, l.indent + 2, rs, k + 2, l);
    SpaceEncoded(rs, k + 1);
  }

  lemma SpaceEncoded(rs: seq<rune>, k: nat)
    requires k < |rs| && rs[k] == 0x20
    ensures EncodeAll(rs[k..]) == [0x20] + EncodeAll(rs[k + 1..])
  {
    assert rs[k..][1..] == rs[k + 1..];
  }

  lemma LineBreakRead(b: seq<byte>, pos: nat, column: nat, l: Layout, at: nat)
    requires Complete(b) && (l.lineBreak == [0x0A] || l.lineBreak == [0x0D] || l.lineBreak == [0x0D, 0x0A]) && l.indent > 0
    requires Has(b, pos, l.lineBreak + Blanks(l.indent)) && at == pos + |l.lineBreak| + l.indent < |b|
    ensures pos < |b|
    ensures ReadBlanks(b, pos, column, false, [], [], []) == ReadBlanks(b, at, l.indent, true, [], [0x0A], [])
  {
    hide ReadWord, ReadLine, ReadBlanks, Has;
    HasSplit(b, pos, l.lineBreak, Blanks(l.indent));
    HasAt(b, pos + |l.lineBreak|, Blanks(l.indent), 0);
    FirstBreakRead(b, pos, column, l.lineBreak);
    IndentRead(b, pos + |l.lineBreak|, 0, l.indent);
  }

  lemma FirstBreakRead(b: seq<byte>, pos: nat, column: nat, lineBreak: seq<byte>)
    requires Complete(b) && (lineBreak == [0x0A] || lineBreak == [0x0D] || lineBreak == [0x0D, 0x0A])
    requires Has(b, pos, lineBreak) && pos + |lineBreak| < |b| && b[pos + |lineBreak|] == 0x20
    ensures ReadBlanks(b, pos, column, false, [], [], []) == ReadBlanks(b, pos + |lineBreak|, 0, true, [], [0x0A], [])
  {
    hide ReadWord, ReadLine, ReadBlanks, Has, IsBreak, BreakWidth, BreakText, Complete;
    BreakIs(b, pos, lineBreak);
    BlanksStep(b, pos, column, false, [], [], []);
    assert [] + [0x0A] == [0x0A];
  }

  lemma BreakIs(b: seq<byte>, pos: nat, lineBreak: seq<byte>)
    requires Complete(b) && (lineBreak == [0x0A] || lineBreak == [0x0D] || lineBreak == [0x0D, 0x0A])
    requires Has(b, pos, lineBreak) && pos + |lineBreak| < |b| && b[pos + |lineBreak|] == 0x20
    ensures pos < |b| && !IsBlank(b, pos) && IsBreak(b, pos)
    ensures BreakWidth(b, pos) == |lineBreak| && BreakText(b, pos) == [0x0A]
  {
    HasAt(b, pos, lineBreak, 0);
    if |lineBreak| == 2 {
      HasAt(b, pos, lineBreak, 1);
    }
    hide Has;
  }

  /** After the indentation the next word follows a single space. */
  lemma BreakRead(b: seq<byte>, at: nat, column: nat)
    requires Complete(b) && at < |b| && column > 0 && !IsBlankZ(b, at)
    ensures ReadBlanks(b, at, column, true, [], [0x0A], []) == Prepend([0x20], ReadWord(b, at, column))
  {
    hide ReadWord;
  }

  lemma GuardRead(b: seq<byte>, at: nat, column: nat)
    requires Complete(b) && at + 2 < |b| && b[at] == 0x5C && b[at + 1] == 0x20
    ensures ReadWord(b, at, column) == Prepend([0x20], ReadWord(b, at + 2, column + 2))
  {
    hide ReadBlanks;
  }

  /** Whatever the value, the layout and the text behind it: reading between the quotes
      gives the value back, and stops at the closing quote. */
  lemma QuotedRoundTrip(b: seq<byte>, pos: nat, column: nat, rs: seq<rune>, l: Layout)
    requires Complete(b) && GoodLayout(rs, l) && column > 0
    requires Has(b, pos, Written(rs, 0, l) + [0x22]) && pos < |b|
    ensures ReadLine(b, pos, column) == Good(EncodeAll(rs), pos + |Written(rs, 0, l)|)
  {
    hide ReadWord, ReadBlanks, Has, Written;
    WordRead(b, pos, column, rs, 0, l);
    assert rs[0..] == rs;
    NotAtEnd(b, pos, rs, l);
  }

  lemma NotAtEnd(b: seq<byte>, pos: nat, rs: seq<rune>, l: Layout)
    requires Complete(b) && GoodLayout(rs, l) && Has(b, pos, Written(rs, 0, l) + [0x22]) && pos < |b|
    ensures b[pos] != 0
  {
    if rs == [] {
      HasAt(b, pos, [0x22], 0) by { assert Written(rs, 0, l) + [0x22] == [0x22]; }
    } else {
      WrittenSplit(b, pos, rs, 0, l);
      if EscapedAt(rs, 0, l) || rs[0] != 0x20 {
        PieceStarts(b, pos, rs, 0, l);
      } else {
        BlankStarts(b, pos, rs, 0, l);
      }
      hide Has, Written, Piece;
    }
  }
}
