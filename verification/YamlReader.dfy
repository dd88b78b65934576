/** The reader: UTF-8 input, read in pieces of any size, checked and handed on. */
module YamlReader {
  import opened Bytes
  import opened YamlUtf8

  const RAW_BUFFER_SIZE := 512
  const BUFFER_SIZE := 1536
  /** The scanner never looks further ahead than an eight-digit escape. */
  const MAX_LOOKAHEAD := 8

  // --------------------------------------------------------- specification

  /** Characters a stream may hold (section 5.1 of YAML 1.1). */
  predicate Allowed(r: rune) {
    || r == 0x09 || r == 0x0A || r == 0x0D || 0x20 <= r <= 0x7E || r == 0x85
    || 0xA0 <= r <= 0xD7FF || 0xE000 <= r <= 0xFFFD || 0x10000 <= r
  }

  predicate AllAllowed(rs: seq<rune>) {
    forall i | 0 <= i < |rs| :: Allowed(rs[i])
  }

  const BOM: seq<byte> := [0xEF, 0xBB, 0xBF]

  /** The input behind an optional byte order mark. */
  function Body(input: seq<byte>): seq<byte> {
    if BOM <= input then input[3..] else input
  }

  predicate IsUtf16(input: seq<byte>) {
    |input| >= 2 && ((input[0] == 0xFF && input[1] == 0xFE) || (input[0] == 0xFE && input[1] == 0xFF))
  }

  /** Well-formed UTF-8 (section 4 of RFC 3629) of allowed characters. */
  ghost predicate Acceptable(input: seq<byte>) {
    exists rs :: Body(input) == EncodeAll(rs) && AllAllowed(rs)
  }

  // ------------------------------------------------------------ one character

  datatype Checked = Invalid | Incomplete | Good(r: rune)

  predicate TrailsOk(s: seq<byte>, w: nat)
    requires w <= |s|
  {
    forall k | 1 <= k < w :: 0x80 <= s[k] <= 0xBF
  }

  /** What the bytes from here on start with. */
  function Check(s: seq<byte>): Checked
    requires s != []
  {
    var w := Width(s[0]);
    if w == 0 then Invalid
    else if w > |s| then Incomplete
    else if !TrailsOk(s, w) then Invalid
    else
      var v := Decoded(s[..w]);
      if (w == 2 && v < 0x80) || (w == 3 && v < 0x800) || (w == 4 && v < 0x10000) then Invalid
      else if (0xD800 <= v <= 0xDFFF) || v > 0x10FFFF then Invalid
      else Good(v)
  }

  lemma TwoOctets(a: byte, b: byte)
    requires 0xC0 <= a < 0xE0 && 0x80 <= b <= 0xBF
    ensures var v := (a - 0xC0) * 64 + b % 64; v / 64 == a - 0xC0 && 0x80 + v % 64 == b && v <= 0x7FF
  {
  }

  lemma ThreeOctetsBack(a: byte, b: byte, c: byte)
    requires 0xE0 <= a < 0xF0 && 0x80 <= b <= 0xBF && 0x80 <= c <= 0xBF
    ensures var v := ((a - 0xE0) * 64 + b % 64) * 64 + c % 64;
      v / 4096 == a - 0xE0 && 0x80 + v / 64 % 64 == b && 0x80 + v % 64 == c && v <= 0xFFFF
  {
    var u := (a - 0xE0) * 64 + b % 64;
    assert (u * 64 + c % 64) / 64 == u;
    assert u / 64 == a - 0xE0;
    assert (u * 64 + c % 64) / 4096 == u / 64;
  }

  lemma FourOctetsBack(a: byte, b: byte, c: byte, d: byte)
    requires 0xF0 <= a < 0xF8 && 0x80 <= b <= 0xBF && 0x80 <= c <= 0xBF && 0x80 <= d <= 0xBF
    ensures var v := (((a - 0xF0) * 64 + b % 64) * 64 + c % 64) * 64 + d % 64;
      v / 262144 == a - 0xF0 && 0x80 + v / 4096 % 64 == b && 0x80 + v / 64 % 64 == c && 0x80 + v % 64 == d
  {
    var t := (a - 0xF0) * 64 + b % 64;
    var u := t * 64 + c % 64;
    var v := u * 64 + d % 64;
    assert v / 64 == u && u / 64 == t && t / 64 == a - 0xF0;
    assert v / 4096 == u / 64;
    assert v / 262144 == (v / 4096) / 64;
  }

  lemma TwoEncode(a: byte, b: byte, v: rune)
    requires 0xC0 <= a < 0xE0 && 0x80 <= b <= 0xBF && 0x80 <= v == (a - 0xC0) * 64 + b % 64
    ensures Encode(v) == [a, b]
  {
    TwoOctets(a, b);
  }

  lemma ThreeEncode(a: byte, b: byte, c: byte, v: rune)
    requires 0xE0 <= a < 0xF0 && 0x80 <= b <= 0xBF && 0x80 <= c <= 0xBF
    requires 0x800 <= v == ((a - 0xE0) * 64 + b % 64) * 64 + c % 64
    ensures Encode(v) == [a, b, c]
  {
    ThreeOctetsBack(a, b, c);
  }

  lemma FourEncode(a: byte, b: byte, c: byte, d: byte, v: rune)
    requires 0xF0 <= a < 0xF8 && 0x80 <= b <= 0xBF && 0x80 <= c <= 0xBF && 0x80 <= d <= 0xBF
    requires 0x10000 <= v == (((a - 0xF0) * 64 + b % 64) * 64 + c % 64) * 64 + d % 64
    ensures Encode(v) == [a, b, c, d]
  {
    FourOctetsBack(a, b, c, d);
  }

  /** The octets of a character in range are its encoding. */
  lemma OctetsEncode(o: seq<byte>, v: rune)
    requires o != [] && |o| == Width(o[0]) && TrailsOk(o, |o|) && v == Decoded(o)
    requires (|o| == 2 ==> v >= 0x80) && (|o| == 3 ==> v >= 0x800) && (|o| == 4 ==> v >= 0x10000)
    ensures Encode(v) == o
  {
    if |o| == 1 {
      DecodedIs(o);
    } else {
      ManyEncode(o, v);
    }
  }

  lemma ManyEncode(o: seq<byte>, v: rune)
    requires |o| > 1 && |o| == Width(o[0]) && TrailsOk(o, |o|) && v == Decoded(o)
    requires (|o| == 2 ==> v >= 0x80) && (|o| == 3 ==> v >= 0x800) && (|o| == 4 ==> v >= 0x10000)
    ensures Encode(v) == o
  {
    hide Decoded, Encode;
    DecodedIs(o);
    match |o|
    case 2 => TwoEncode(o[0], o[1], v);
    case 3 => ThreeEncode(o[0], o[1], o[2], v);
    case _ => FourEncode(o[0], o[1], o[2], o[3], v);
  }

  /** Bytes that pass the checks are the encoding of the character found. */
  lemma CheckEncodes(s: seq<byte>)
    requires s != [] && Check(s).Good?
    ensures Encode(Check(s).r) <= s && |Encode(Check(s).r)| == Width(s[0])
  {
    hide Decoded, Encode;
    var o := s[..Width(s[0])];
    OctetsEncode(o, Decoded(o));
  }

  /** And the encoding of a character passes the checks. */
  lemma EncodedChecks(s: seq<byte>, r: rune)
    requires Encode(r) <= s
    ensures s != [] && Check(s) == Good(r)
  {
    EncodeDecodes(r);
    var w := |Encode(r)|;
    assert s[..w] == Encode(r);
    Trails(r);
    hide Decoded;
    assert forall k | 1 <= k < w :: s[k] == Encode(r)[k];
    assert s[0] == Encode(r)[0];
  }

  lemma Trails(r: rune)
    ensures TrailsOk(Encode(r), |Encode(r)|)
    ensures |Encode(r)| == 2 ==> r >= 0x80
    ensures |Encode(r)| == 3 ==> r >= 0x800
    ensures |Encode(r)| == 4 ==> r >= 0x10000
  {
  }

  lemma SameTail(a: seq<byte>, x: seq<byte>, y: seq<byte>)
    requires a + x == a + y
    ensures x == y
  {
    assert x == (a + x)[|a|..] && y == (a + y)[|a|..];
  }

  /** What has been decoded is decided: any reading of the whole starts with it. */
  lemma {:induction false} DecodedFirst(done: seq<rune>, rest: seq<byte>, rs: seq<rune>)
    requires EncodeAll(rs) == EncodeAll(done) + rest
    ensures done <= rs && EncodeAll(rs[|done|..]) == rest
  {
    hide Encode, Decoded;
    if done == [] {
      assert rs[0..] == rs;
    } else {
      var all := EncodeAll(rs);
      assert all == Encode(done[0]) + (EncodeAll(done[1..]) + rest);
      EncodedChecks(all, done[0]);
      assert rs != [];
      assert all == Encode(rs[0]) + EncodeAll(rs[1..]);
      EncodedChecks(all, rs[0]);
      SameTail(Encode(rs[0]), EncodeAll(rs[1..]), EncodeAll(done[1..]) + rest);
      DecodedFirst(done[1..], rest, rs[1..]);
      assert rs[1..][|done| - 1..] == rs[|done|..];
    }
  }

  /** Bytes that do not start with an allowed character make the input unacceptable. */
  lemma Rejects(input: seq<byte>, done: seq<rune>, rest: seq<byte>)
    requires Body(input) == EncodeAll(done) + rest && rest != []
    requires Check(rest) == Invalid || Check(rest) == Incomplete || (Check(rest).Good? && !Allowed(Check(rest).r))
    ensures !Acceptable(input)
  {
    hide Body, Check, Encode;
    if Acceptable(input) {
      var rs :| Body(input) == EncodeAll(rs) && AllAllowed(rs);
      DecodedFirst(done, rest, rs);
      var more := rs[|done|..];
      EncodeOf(more);
      EncodedChecks(rest, more[0]);
      assert false;
    }
  }

  lemma EncodeOf(rs: seq<rune>)
    requires EncodeAll(rs) != []
    ensures rs != [] && Encode(rs[0]) <= EncodeAll(rs)
  {
    hide Encode;
  }

  lemma {:induction false} EncodeSize(rs: seq<rune>)
    ensures |rs| <= |EncodeAll(rs)| <= 4 * |rs|
  {
    hide Encode;
    if rs != [] {
      EncodeSize(rs[1..]);
    }
  }

  // ---------------------------------------------------------------- the reader

  class Reader {
    const input: seq<byte>
    var inputPos: nat
    const raw: array<byte>
    var rawPos: nat
    var rawLen: nat
    var eof: bool
    /** The encoding has been determined. */
    var known: bool
    const buffer: array<byte>
    var bufferPos: nat
    var bufferLen: nat
    /** Characters in the buffer that the scanner has not consumed. */
    var unread: nat

    /** Characters decoded, how many of them the scanner has consumed, and whether the
        final NUL is in the buffer. */
    ghost var done: seq<rune>
    ghost var consumed: nat
    ghost var ended: bool

    constructor (input: seq<byte>)
      requires !IsUtf16(input)
      ensures Valid() && fresh(raw) && fresh(buffer) && this.input == input && consumed == 0 && !ended
    {
      this.input := input;
      raw := new byte[RAW_BUFFER_SIZE];
      buffer := new byte[BUFFER_SIZE];
      inputPos, rawPos, rawLen, eof, known := 0, 0, 0, false, false;
      bufferPos, bufferLen, unread := 0, 0, 0;
      done, consumed, ended := [], 0, false;
    }

    ghost predicate Shape()
      reads this
    {
      && raw.Length == RAW_BUFFER_SIZE && buffer.Length == BUFFER_SIZE && raw != buffer
      && inputPos <= |input| && rawPos <= rawLen <= RAW_BUFFER_SIZE && bufferPos <= bufferLen <= BUFFER_SIZE
      && (eof ==> inputPos == |input|)
      && consumed <= |done| && unread == |done| - consumed + (if ended then 1 else 0)
      && AllAllowed(done) && !IsUtf16(input)
    }

    /** Bytes not decoded yet. */
    ghost function Rest(): seq<byte>
      requires rawPos <= rawLen <= raw.Length && inputPos <= |input|
      reads this`rawPos, this`rawLen, this`inputPos, raw
    {
      raw[rawPos..rawLen] + input[inputPos..]
    }

    /** What is decoded and what is not make up the input. */
    ghost predicate RawKept()
      requires rawPos <= rawLen <= raw.Length && inputPos <= |input|
      reads this`known, this`done, this`ended, this`rawPos, this`rawLen, this`inputPos, raw
    {
      if known then EncodeAll(done) + Rest() == Body(input) else Rest() == input && done == [] && !ended
    }

    /** The buffer holds what is decoded and not consumed. */
    ghost predicate BufferKept()
      requires bufferPos <= bufferLen <= buffer.Length && consumed <= |done|
      reads this`bufferPos, this`bufferLen, this`done, this`consumed, this`ended, buffer
    {
      buffer[bufferPos..bufferLen] == EncodeAll(done[consumed..]) + (if ended then [0] else [])
    }

    /** Nothing is lost, and nothing is added but the final NUL. */
    ghost predicate Kept()
      requires Shape()
      reads this, raw, buffer
    {
      RawKept() && BufferKept()
    }

    ghost predicate Valid()
      reads this, raw, buffer
    {
      && Shape() && Kept()
      && (eof && rawPos == rawLen ==> ended)
      && (ended ==> known && eof && rawPos == rawLen)
      && (!known ==> !eof && rawPos == rawLen)
    }

    /** The read handler puts some of the remaining input into the raw buffer.  It may
        announce the end of the input with the last bytes or only afterwards. */
    method ReadHandler() returns (size: nat, atEnd: bool)
      requires Shape() && rawLen < RAW_BUFFER_SIZE
      modifies this`inputPos, raw
      ensures Shape() && rawLen + size <= RAW_BUFFER_SIZE && (size == 0 ==> atEnd) && (atEnd ==> inputPos == |input|)
      ensures inputPos == old(inputPos) + size
      ensures raw[..rawLen] == old(raw[..rawLen]) && raw[rawLen..rawLen + size] == input[old(inputPos)..inputPos]
    {
      var left := |input| - inputPos;
      var room := raw.Length - rawLen;
      if left == 0 { return 0, true; }
      size :| 1 <= size <= left && size <= room;
      atEnd := *;
      atEnd := atEnd && size == left;
      CopyInput(size);
      inputPos := inputPos + size;
    }

    method CopyInput(size: nat)
      requires rawLen + size <= raw.Length && inputPos + size <= |input|
      modifies raw
      ensures raw[..rawLen] == old(raw[..rawLen]) && raw[rawLen..rawLen + size] == input[inputPos..inputPos + size]
    {
      forall i | 0 <= i < size {
        raw[rawLen + i] := input[inputPos + i];
      }
    }

    /** Refill the raw buffer. */
    method UpdateRawBuffer()
      requires Shape() && (rawPos == 0 ==> rawLen < RAW_BUFFER_SIZE)
      modifies this`inputPos, this`rawPos, this`rawLen, this`eof, raw
      ensures Shape() && Rest() == old(Rest())
      ensures !old(eof) ==> rawPos == 0 && inputPos >= old(inputPos) && (inputPos > old(inputPos) || eof)
      ensures old(eof) ==> rawPos == old(rawPos) && rawLen == old(rawLen) && eof && inputPos == old(inputPos)
    {
      if rawPos == 0 && rawLen == raw.Length { return; }
      if eof { return; }
      hide Rest;
      MoveRaw();
      ReadBehind();
    }

    /** Read on behind the bytes at the front of the raw buffer. */
    method ReadBehind()
      requires Shape() && rawPos == 0 && rawLen < RAW_BUFFER_SIZE
      modifies this`inputPos, this`rawLen, this`eof, raw
      ensures Shape() && Rest() == old(Rest()) && inputPos >= old(inputPos) && (inputPos > old(inputPos) || eof)
    {
      hide AllAllowed;
      ghost var front := raw[..rawLen];
      SliceHead(raw[..], 0, rawLen, 0);
      var size, atEnd := ReadHandler();
      Refilled(raw[..], rawLen, size, front, input, old(inputPos), inputPos);
      rawLen := rawLen + size;
      eof := atEnd;
    }

    /** Move the remaining raw bytes to the front. */
    method MoveRaw()
      requires Shape() && (rawPos == 0 ==> rawLen < RAW_BUFFER_SIZE)
      modifies this`rawPos, this`rawLen, raw
      ensures Shape() && Rest() == old(Rest()) && rawPos == 0 && rawLen < RAW_BUFFER_SIZE
      ensures raw[..rawLen] == old(raw[rawPos..rawLen])
    {
      ghost var left := raw[rawPos..rawLen];
      if rawPos > 0 && rawPos < rawLen {
        forall i | 0 <= i < rawLen - rawPos {
          raw[i] := raw[rawPos + i];
        }
      }
      rawLen := rawLen - rawPos;
      rawPos := 0;
      assert raw[..rawLen] == left;
    }

    /** Skip a byte order mark. */
    method DetermineEncoding()
      requires Shape() && Kept() && !known && !eof && rawPos == rawLen
      modifies this`inputPos, this`rawPos, this`rawLen, this`eof, this`known, raw
      ensures Shape() && Kept() && known
    {
      hide BufferKept, EncodeAll, AllAllowed, Rest, Body;
      FillThree();
      SkipMark();
    }

    method SkipMark()
      requires Shape() && !known && !ended && done == [] && Rest() == input && (eof || rawLen - rawPos >= 3)
      modifies this`rawPos, this`known
      ensures Shape() && RawKept() && known
    {
      hide AllAllowed, EncodeAll, Body;
      MarkSeen(input, raw[..], rawPos, rawLen, input[inputPos..]);
      NothingEncoded();
      if rawLen - rawPos >= 3 && raw[rawPos] == 0xEF && raw[rawPos + 1] == 0xBB && raw[rawPos + 2] == 0xBF {
        rawPos := rawPos + 3;
      }
      known := true;
      assert [] + Rest() == Rest();
    }

    /** Enough bytes for the longest mark, if there are any. */
    method FillThree()
      requires Shape()
      modifies this`inputPos, this`rawPos, this`rawLen, this`eof, raw
      ensures Shape() && Rest() == old(Rest()) && (eof || rawLen - rawPos >= 3)
    {
      hide Rest;
      while !eof && rawLen - rawPos < 3
        invariant Shape() && Rest() == old(Rest())
        decreases |input| - inputPos, !eof
      {
        UpdateRawBuffer();
      }
    }

    // ------------------------------------------------------------ decoding

    /** Look at the character at the head of the raw buffer. */
    method DecodeOne() returns (d: Checked)
      requires Shape() && rawPos < rawLen
      ensures d == Check(raw[rawPos..rawLen])
    {
      hide Decoded;
      var octet := raw[rawPos];
      ghost var s := raw[rawPos..rawLen];
      var width := Width(octet);
      if width == 0 { return Invalid; }
      if width > rawLen - rawPos { return Incomplete; }
      var value: nat := Lead(octet);
      DecodedFirstOctet(s);
      for k := 1 to width
        invariant value == Decoded(s[..k]) && forall j | 1 <= j < k :: 0x80 <= s[j] <= 0xBF
      {
        octet := raw[rawPos + k];
        assert octet == s[k];
        if !(0x80 <= octet <= 0xBF) { return Invalid; }
        DecodedMore(s[..k], octet);
        assert s[..k + 1] == s[..k] + [octet];
        value := value * 64 + octet % 64;
      }
      if (width == 2 && value < 0x80) || (width == 3 && value < 0x800) || (width == 4 && value < 0x10000) { return Invalid; }
      if (0xD800 <= value <= 0xDFFF) || value > 0x10FFFF { return Invalid; }
      d := Good(value);
    }

    /** Put a character behind the others. */
    method Store(value: rune)
      requires buffer.Length == BUFFER_SIZE && bufferPos <= bufferLen && bufferLen + |Encode(value)| <= BUFFER_SIZE
      modifies this`bufferLen, buffer
      ensures bufferLen == old(bufferLen) + |Encode(value)|
      ensures buffer[bufferPos..bufferLen] == old(buffer[bufferPos..bufferLen]) + Encode(value)
    {
      hide Encode;
      ghost var before := buffer[bufferPos..bufferLen];
      Write(value);
      bufferLen := bufferLen + |Encode(value)|;
      assert buffer[bufferPos..bufferLen] == before + buffer[old(bufferLen)..bufferLen];
    }

    method Write(value: rune)
      requires buffer.Length == BUFFER_SIZE && bufferLen + |Encode(value)| <= BUFFER_SIZE
      modifies buffer
      ensures buffer[bufferLen..bufferLen + |Encode(value)|] == Encode(value)
      ensures forall i | 0 <= i < bufferLen :: buffer[i] == old(buffer[i])
    {
      if value <= 0x7F {
        buffer[bufferLen] := value;
      } else if value <= 0x7FF {
        Octets2(0xC0 + value / 64, 0x80 + value % 64);
      } else if value <= 0xFFFF {
        Octets3(0xE0 + value / 4096, 0x80 + value / 64 % 64, 0x80 + value % 64);
      } else {
        Octets4(0xF0 + value / 262144, 0x80 + value / 4096 % 64, 0x80 + value / 64 % 64, 0x80 + value % 64);
      }
    }

    method Octets2(a: byte, b: byte)
      requires bufferLen + 2 <= buffer.Length
      modifies buffer
      ensures buffer[bufferLen..bufferLen + 2] == [a, b]
      ensures forall i | 0 <= i < bufferLen :: buffer[i] == old(buffer[i])
    {
      buffer[bufferLen] := a;
      buffer[bufferLen + 1] := b;
    }

    method Octets3(a: byte, b: byte, c: byte)
      requires bufferLen + 3 <= buffer.Length
      modifies buffer
      ensures buffer[bufferLen..bufferLen + 3] == [a, b, c]
      ensures forall i | 0 <= i < bufferLen :: buffer[i] == old(buffer[i])
    {
      buffer[bufferLen] := a;
      buffer[bufferLen + 1] := b;
      buffer[bufferLen + 2] := c;
    }

    method Octets4(a: byte, b: byte, c: byte, d: byte)
      requires bufferLen + 4 <= buffer.Length
      modifies buffer
      ensures buffer[bufferLen..bufferLen + 4] == [a, b, c, d]
      ensures forall i | 0 <= i < bufferLen :: buffer[i] == old(buffer[i])
    {
      buffer[bufferLen] := a;
      buffer[bufferLen + 1] := b;
      buffer[bufferLen + 2] := c;
      buffer[bufferLen + 3] := d;
    }

    /** Decode all whole characters in the raw buffer. */
    method DecodeRaw() returns (ok: bool)
      requires Shape() && Kept() && known && !ended && bufferLen + (rawLen - rawPos) < BUFFER_SIZE
      modifies this`rawPos, this`bufferLen, this`unread, this`done, buffer
      ensures Shape() && Kept() && consumed <= |old(done)| && old(done) <= done
      ensures bufferLen + (rawLen - rawPos) == old(bufferLen + (rawLen - rawPos))
      ensures ok ==> rawPos == rawLen || (!eof && rawLen - rawPos < 4)
      ensures !ok ==> !Acceptable(input)
    {
      hide BufferKept, EncodeAll, Encode, Body, AllAllowed, Allowed, Acceptable, Check, Decoded;
      ok := true;
      while rawPos != rawLen
        invariant Shape() && Kept() && old(done) <= done && rawPos <= rawLen
        invariant bufferLen + (rawLen - rawPos) == old(bufferLen + (rawLen - rawPos))
        decreases rawLen - rawPos
      {
        ghost var s, rest := raw[rawPos..rawLen], Rest();
        var d := DecodeOne();
        ExtendedCheck(s, input[inputPos..]);
        match d
        case Invalid =>
          Rejects(input, done, rest);
          return false;
        case Incomplete =>
          IncompleteIsShort(s);
          if eof {
            assert input[inputPos..] == [] && rest == s;
            Rejects(input, done, rest);
            return false;
          }
          break;
        case Good(value) =>
          if !Allowed(value) {
            Rejects(input, done, rest);
            return false;
          }
          CheckEncodes(s);
          Take(value);
      }
    }

    /** Move one character from the raw buffer to the buffer. */
    method Take(value: rune)
      requires Shape() && Kept() && known && !ended && rawPos < rawLen && Allowed(value)
      requires Encode(value) <= raw[rawPos..rawLen] && bufferLen + (rawLen - rawPos) < BUFFER_SIZE
      modifies this`rawPos, this`bufferLen, this`unread, this`done, buffer
      ensures Shape() && Kept() && done == old(done) + [value]
      ensures rawPos == old(rawPos) + |Encode(value)| <= rawLen && bufferLen == old(bufferLen) + |Encode(value)|
    {
      hide Encode, EncodeAll, Decoded, Body, Allowed, AllAllowed;
      TakenFrom(done, value, raw[rawPos..rawLen], input[inputPos..]);
      TakenInto(done, consumed, value, buffer[bufferPos..bufferLen]);
      SliceHead(raw[..], rawPos, rawLen, |Encode(value)|);
      OneMoreAllowed(done, value);
      rawPos := rawPos + |Encode(value)|;
      Store(value);
      unread := unread + 1;
      done := done + [value];
    }

    // ----------------------------------------------------------- on demand

    /** Move the characters that have not been consumed to the front of the buffer. */
    method MoveBuffer()
      requires Shape() && Kept()
      modifies this`bufferPos, this`bufferLen, buffer
      ensures Shape() && Kept() && bufferPos == 0
    {
      hide RawKept, EncodeAll, Body, AllAllowed;
      MoveToFront();
    }

    method MoveToFront()
      requires bufferPos <= bufferLen <= buffer.Length
      modifies this`bufferPos, this`bufferLen, buffer
      ensures bufferPos == 0 && bufferLen <= buffer.Length
      ensures buffer[bufferPos..bufferLen] == old(buffer[bufferPos..bufferLen])
    {
      if bufferPos > 0 && bufferPos < bufferLen {
        Shift();
        bufferLen := bufferLen - bufferPos;
        bufferPos := 0;
      } else if bufferPos == bufferLen {
        bufferLen := 0;
        bufferPos := 0;
      }
    }

    method Shift()
      requires bufferPos <= bufferLen <= buffer.Length
      modifies buffer
      ensures buffer[0..bufferLen - bufferPos] == old(buffer[bufferPos..bufferLen])
    {
      forall i | 0 <= i < bufferLen - bufferPos {
        buffer[i] := buffer[bufferPos + i];
      }
    }

    /** Ensure that the buffer holds at least `length` characters, or everything up to the
        final NUL.  Every write is inside the buffers. */
    method UpdateBuffer(length: nat) returns (ok: bool)
      requires Valid() && length <= MAX_LOOKAHEAD
      modifies this`inputPos, this`rawPos, this`rawLen, this`eof, this`known, this`bufferPos, this`bufferLen,
               this`unread,
        this`done, this`ended, raw, buffer
      ensures ok ==> Valid() && (unread >= length || ended) && old(done) <= done && (old(ended) ==> ended)
      ensures !ok ==> !Acceptable(input)
    {
      hide Rest, Kept, Acceptable;
      if eof && rawPos == rawLen { return true; }
      if unread >= length { return true; }
      if !known {
        DetermineEncoding();
      }
      MoveBuffer();
      ok := Fill(length);
    }

    /** Decode until there is enough. */
    method Fill(length: nat) returns (ok: bool)
      requires Shape() && Kept() && known && !ended && bufferPos == 0 && unread < length <= MAX_LOOKAHEAD
      modifies this`inputPos, this`rawPos, this`rawLen, this`eof, this`bufferLen, this`unread, this`done, this`ended,
               raw, buffer
      ensures ok ==> Valid() && (unread >= length || ended) && old(done) <= done
      ensures !ok ==> !Acceptable(input)
    {
      hide Rest, Kept, Acceptable;
      var first, stop := true, false;
      ok := true;
      while unread < length && !stop
        invariant stop == ended && (first ==> unread < length)
        invariant Shape() && Kept() && known && old(done) <= done && bufferPos == 0 && ok
        invariant if ended then eof && rawPos == rawLen else first || (!eof && rawLen - rawPos < 4)
        decreases !stop, |input| - inputPos, !eof, first
      {
        if !first || rawPos == rawLen {
          Refresh();
        }
        first := false;
        SmallEnough();
        ok := DecodeRaw();
        if !ok { return; }
        if eof {
          PutNul();
          stop := true;
        }
      }
    }

    method Refresh()
      requires Shape() && Kept() && rawLen - rawPos < 4
      modifies this`inputPos, this`rawPos, this`rawLen, this`eof, raw
      ensures Shape() && Kept()
      ensures !old(eof) ==> inputPos >= old(inputPos) && (inputPos > old(inputPos) || eof)
      ensures old(eof) ==> rawPos == old(rawPos) && rawLen == old(rawLen) && eof && inputPos == old(inputPos)
    {
      hide Rest, EncodeAll, BufferKept;
      UpdateRawBuffer();
    }

    /** A few characters and a raw buffer leave room for more. */
    lemma SmallEnough()
      requires Shape() && Kept() && !ended && bufferPos == 0 && unread < MAX_LOOKAHEAD
      ensures bufferLen <= 4 * unread && bufferLen + (rawLen - rawPos) < BUFFER_SIZE
    {
      EncodeSize(done[consumed..]);
      assert |buffer[bufferPos..bufferLen]| == bufferLen;
      hide EncodeAll;
    }

    method PutNul()
      requires Shape() && Kept() && known && !ended && bufferLen < BUFFER_SIZE
      modifies this`bufferLen, this`unread, this`ended, buffer
      ensures Shape() && Kept() && ended && unread == old(unread) + 1
    {
      hide Rest, EncodeAll;
      ghost var before := buffer[bufferPos..bufferLen];
      assert before == EncodeAll(done[consumed..]) by {
        assert EncodeAll(done[consumed..]) + [] == EncodeAll(done[consumed..]);
      }
      buffer[bufferLen] := 0;
      bufferLen := bufferLen + 1;
      unread := unread + 1;
      ended := true;
      assert buffer[bufferPos..bufferLen] == before + [0];
    }

    // ------------------------------------------------------------ consuming

    /** The scanner steps over a character: its bytes leave the buffer. */
    method Skip() returns (bytes: seq<byte>)
      requires Valid() && bufferPos < bufferLen && buffer[bufferPos] != 0
      modifies this`bufferPos, this`unread, this`consumed
      ensures Valid() && done == old(done) && consumed == old(consumed) + 1 <= |done| && ended == old(ended)
      ensures bytes == Encode(done[old(consumed)])
    {
      hide RawKept, Encode, Decoded, EncodeAll, Body, AllAllowed;
      ghost var tail := if ended then [0] else [];
      ghost var b := buffer[bufferPos..bufferLen];
      SliceHead(buffer[..], bufferPos, bufferLen, 0);
      SliceHead(done, consumed, |done|, 0);
      HeadOf(done[consumed..], b, tail);
      SliceHead(done, consumed, |done|, 1);
      var w := Width(buffer[bufferPos]);
      SliceHead(buffer[..], bufferPos, bufferLen, w);
      bytes := buffer[bufferPos..bufferPos + w];
      bufferPos := bufferPos + w;
      unread := unread - 1;
      consumed := consumed + 1;
    }

    /** A NUL at the front is the final one, and then everything has been handed on. */
    lemma AtFront()
      requires Valid() && (unread >= 1 || ended)
      ensures bufferPos < bufferLen
      ensures buffer[bufferPos] == 0 ==> consumed == |done| && EncodeAll(done) == Body(input) && Acceptable(input)
    {
      hide Body;
      var tail := if ended then [0] else [];
      var b := buffer[bufferPos..bufferLen];
      assert b != [] ==> b[0] == buffer[bufferPos];
      NotNul(done, consumed, tail);
      if b[0] == 0 {
        assert Rest() == [];
        assert EncodeAll(done) + [] == EncodeAll(done);
      }
    }

    /** Characters consumed are in the input. */
    lemma Progress()
      requires Valid()
      ensures consumed <= |Body(input)|
    {
      hide Body, EncodeAll;
      EncodeSize(done);
    }
  }

  lemma NotNul(done: seq<rune>, consumed: nat, tail: seq<byte>)
    requires AllAllowed(done) && consumed <= |done| && (tail == [] || tail == [0])
    requires consumed < |done| || tail == [0]
    ensures var b := EncodeAll(done[consumed..]) + tail;
      b != [] && (b[0] == 0 ==> consumed == |done|)
  {
    if consumed < |done| {
      assert done[consumed..][0] == done[consumed];
      var r := done[consumed];
      assert Encode(r)[0] != 0;
      hide Encode;
      assert EncodeAll(done[consumed..]) == Encode(r) + EncodeAll(done[consumed..][1..]);
    }
  }

  /** The first `w` elements of a slice, and the others. */
  lemma SliceHead<T>(s: seq<T>, i: nat, j: nat, w: nat)
    requires i + w <= j <= |s|
    ensures s[i..j][..w] == s[i..i + w] && s[i..j][w..] == s[i + w..j]
    ensures i < j ==> s[i..j][0] == s[i]
    ensures j == |s| ==> s[i..j] == s[i..] && s[i + w..j] == s[i + w..]
  {
  }

  lemma HeadOf(rs: seq<rune>, b: seq<byte>, tail: seq<byte>)
    requires b == EncodeAll(rs) + tail && b != [] && b[0] != 0 && (tail == [] || tail == [0])
    ensures rs != [] && Width(b[0]) == |Encode(rs[0])| <= |b| && b[..|Encode(rs[0])|] == Encode(rs[0])
    ensures b[|Encode(rs[0])|..] == EncodeAll(rs[1..]) + tail
  {
    if rs != [] {
      EncodeDecodes(rs[0]);
      hide Encode, Decoded;
      assert b == Encode(rs[0]) + (EncodeAll(rs[1..]) + tail);
    }
  }

  /** The whole input, however it arrives: read to the end exactly if it is well formed and
      all its characters are allowed, and then it comes out byte for byte, the byte order
      mark apart, up to the final NUL. */
  method ReadAll(input: seq<byte>) returns (ok: bool, out: seq<byte>)
    requires !IsUtf16(input)
    ensures ok <==> Acceptable(input)
    ensures ok ==> out == Body(input)
  {
    hide Acceptable, EncodeAll, Encode, Body, AllAllowed, Reader.Kept, Reader.Rest;
    var reader := new Reader(input);
    out := [];
    NothingYet(reader.done);
    while true
      invariant reader.Valid() && fresh(reader) && fresh(reader.raw) && fresh(reader.buffer) && reader.input == input
      invariant out == EncodeAll(reader.done[..reader.consumed])
      decreases |Body(input)| - reader.consumed
    {
      ghost var taken := reader.done[..reader.consumed];
      ok := reader.UpdateBuffer(1);
      if !ok { return; }
      assert reader.done[..reader.consumed] == taken;
      reader.AtFront();
      if reader.buffer[reader.bufferPos] == 0 {
        assert reader.done[..reader.consumed] == reader.done;
        return true, out;
      }
      var bytes := reader.Skip();
      OneMore(reader.done, reader.consumed - 1);
      out := out + bytes;
      reader.Progress();
    }
  }

  lemma NothingYet(done: seq<rune>)
    ensures EncodeAll(done[..0]) == []
  {
  }

  lemma OneMore(done: seq<rune>, k: nat)
    requires k < |done|
    ensures EncodeAll(done[..k + 1]) == EncodeAll(done[..k]) + Encode(done[k])
  {
    hide Encode, EncodeAll;
    assert done[..k + 1] == done[..k] + [done[k]];
    AllButOne(done[..k], done[k]);
  }

  lemma TakenFrom(done: seq<rune>, value: rune, s: seq<byte>, rest: seq<byte>)
    requires Encode(value) <= s
    ensures EncodeAll(done) + (s + rest) == EncodeAll(done + [value]) + (s[|Encode(value)|..] + rest)
  {
    hide Encode, EncodeAll;
    AllButOne(done, value);
    Regroup(EncodeAll(done), Encode(value), s, rest);
  }

  lemma TakenInto(done: seq<rune>, consumed: nat, value: rune, b: seq<byte>)
    requires consumed <= |done| && b == EncodeAll(done[consumed..]) + []
    ensures b + Encode(value) == EncodeAll((done + [value])[consumed..]) + []
  {
    hide Encode, EncodeAll;
    AllButOne(done[consumed..], value);
    assert (done + [value])[consumed..] == done[consumed..] + [value];
  }

  lemma OneMoreAllowed(done: seq<rune>, value: rune)
    requires AllAllowed(done) && Allowed(value)
    ensures AllAllowed(done + [value])
  {
    hide Allowed;
  }

  lemma AllButOne(done: seq<rune>, value: rune)
    ensures EncodeAll(done + [value]) == EncodeAll(done) + Encode(value)
  {
    hide Encode, EncodeAll;
    EncodeSingle(value);
    EncodeAllAppend(done, [value]);
  }

  lemma Regroup(a: seq<byte>, e: seq<byte>, s: seq<byte>, rest: seq<byte>)
    requires e <= s
    ensures a + (s + rest) == (a + e) + (s[|e|..] + rest)
  {
    assert s == e + s[|e|..];
  }

  lemma EncodeSingle(value: rune)
    ensures EncodeAll([value]) == Encode(value)
  {
    hide Encode;
    assert [value][1..] == [];
  }

  lemma DecodedFirstOctet(s: seq<byte>)
    requires s != []
    ensures Decoded(s[..1]) == Lead(s[0])
  {
  }

  /** More bytes do not change the verdict on the first character. */
  lemma ExtendedCheck(s: seq<byte>, t: seq<byte>)
    requires s != []
    ensures !Check(s).Incomplete? ==> Check(s + t) == Check(s)
  {
    hide Decoded, Width;
    var w := Width(s[0]);
    assert (s + t)[0] == s[0];
    if w <= |s| {
      assert (s + t)[..w] == s[..w];
      assert forall k | 1 <= k < w :: (s + t)[k] == s[k];
    }
  }

  lemma IncompleteIsShort(s: seq<byte>)
    requires s != [] && Check(s).Incomplete?
    ensures |s| < 4
  {
  }

  lemma Refilled(raw: seq<byte>, len: nat, size: nat, front: seq<byte>, input: seq<byte>, i: nat, j: nat)
    requires len + size <= |raw| && raw[..len] == front && i <= j <= |input| && raw[len..len + size] == input[i..j]
    ensures raw[0..len + size] + input[j..] == front + input[i..]
  {
    assert raw[0..len + size] == raw[..len] + raw[len..len + size];
    assert input[i..] == input[i..j] + input[j..];
  }

  lemma NothingEncoded()
    ensures EncodeAll([]) == []
  {
  }

  /** With three bytes, or all there are, the mark is recognised. */
  lemma MarkSeen(input: seq<byte>, raw: seq<byte>, i: nat, j: nat, back: seq<byte>)
    requires i <= j <= |raw| && raw[i..j] + back == input && (j - i >= 3 || back == [])
    ensures if j - i >= 3 && raw[i] == 0xEF && raw[i + 1] == 0xBB && raw[i + 2] == 0xBF
            then Body(input) == raw[i + 3..j] + back else Body(input) == raw[i..j] + back
  {
    hide Body;
    BomSeen(input, raw[i..j], back);
    if j - i >= 3 {
      SliceHead(raw, i, j, 3);
    }
  }

  lemma BomSeen(input: seq<byte>, front: seq<byte>, back: seq<byte>)
    requires front + back == input && (|front| >= 3 || back == [])
    ensures if |front| >= 3 && front[0] == 0xEF && front[1] == 0xBB && front[2] == 0xBF
            then Body(input) == front[3..] + back else Body(input) == input
  {
    if |front| >= 3 {
      assert input[..3] == front[..3];
      assert front[..3] == [front[0], front[1], front[2]];
      assert input[3..] == front[3..] + back;
    }
  }
}
