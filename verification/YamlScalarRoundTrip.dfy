/** The emitter's double-quoted writer followed by the scanner. */
module YamlScalarRoundTrip {
  import opened Bytes
  import opened YamlUtf8
  import opened YamlQuoted
  import opened YamlEmitter
  import opened YamlScalarScanner
  import R = YamlReader

  /** Write a value through the small output buffer, then scan what the write handler
      received: the same value comes back, wherever the buffer was flushed and whichever
      lines were folded; and it is written whenever the handler takes that many calls. */
  method WriteAndScan(value: seq<byte>, ghost rs: seq<rune>, unicode: bool, lineBreak: seq<byte>,
                      bestWidth: int, indent: nat, column: nat, allowBreaks: bool, quota: nat)
    returns (written: bool, back: seq<byte>)
    requires value == EncodeAll(rs) && indent > 0
    requires lineBreak == [0x0A] || lineBreak == [0x0D] || lineBreak == [0x0D, 0x0A]
    ensures written ==> back == value
    ensures quota > |rs| * (indent + 10) + 4 ==> written
  {
    hide EncodeAll, Written, GoodLayout, ReadLine, Complete;
    var emitter := new Emitter(unicode, lineBreak, bestWidth, indent, column, true, false, quota);
    ghost var folds;
    written, folds := emitter.WriteDoubleQuoted(value, allowBreaks, rs);
    back := [];
    if !written { return; }
    written := emitter.Flush();
    if !written { return; }
    var buffer := emitter.received + [0];
    ghost var l := emitter.Folding(folds);
    Received(buffer, rs, l, emitter.Out());
    var scanner := new Scanner(buffer, 0, column);
    var ok;
    ok, back := scanner.ScanDoubleQuoted();
    QuotedRoundTrip(buffer, 1, column + 1, rs, l);
  }

  lemma Received(buffer: seq<byte>, rs: seq<rune>, l: Layout, out: seq<byte>)
    requires GoodLayout(rs, l) && out == [] + [] + ([0x22] + Written(rs, 0, l) + [0x22]) && buffer == out + [0]
    ensures Complete(buffer) && buffer[0] == 0x22 && 1 < |buffer| && Has(buffer, 1, Written(rs, 0, l) + [0x22])
  {
    hide Written, GoodLayout, Whole, Complete;
    var w := Written(rs, 0, l);
    assert buffer == [0x22] + (w + [0x22]) + [0];
    assert buffer[1..1 + |w| + 1] == w + [0x22];
    WrittenWhole(rs, 0, l);
    AsciiWhole([0x22]);
    WholeAppend([0x22], w);
    WholeAppend([0x22] + w, [0x22]);
    assert [0x22] + w + [0x22] == out;
    WholeComplete(out);
  }

  /** No character is cut off at the end. */
  predicate Whole(s: seq<byte>) {
    forall i | 0 <= i < |s| :: i + Width(s[i]) <= |s|
  }

  lemma WholeAppend(a: seq<byte>, b: seq<byte>)
    requires Whole(a) && Whole(b)
    ensures Whole(a + b)
  {
    hide Width;
    forall i | 0 <= i < |a + b| ensures i + Width((a + b)[i]) <= |a + b| {
      if i < |a| {
        assert (a + b)[i] == a[i];
      } else {
        assert (a + b)[i] == b[i - |a|];
      }
    }
  }

  lemma WholeComplete(s: seq<byte>)
    requires Whole(s)
    ensures Complete(s + [0])
  {
    hide Width;
  }

  lemma AsciiWhole(s: seq<byte>)
    requires forall i | 0 <= i < |s| :: s[i] < 0x80
    ensures Whole(s)
  {
  }

  lemma EncodeWhole(r: rune)
    ensures Whole(Encode(r))
  {
    forall i | 0 <= i < |Encode(r)| ensures i + Width(Encode(r)[i]) <= |Encode(r)| {
      EncodeDecodes(r);
      if i > 0 {
        Continuation(r, i);
      }
      hide Encode;
    }
  }

  lemma Continuation(r: rune, i: nat)
    requires 0 < i < |Encode(r)|
    ensures Width(Encode(r)[i]) == 0
  {
  }

  lemma {:induction false} HexDigitsAscii(v: nat, n: nat)
    ensures forall i | 0 <= i < n :: HexDigits(v, n)[i] < 0x80
  {
    if n > 0 {
      HexDigitsAscii(v / 16, n - 1);
    }
  }

  lemma EscapeWhole(r: rune)
    ensures Whole(EscapeText(r))
  {
    hide HexDigits, Whole;
    HexDigitsAscii(r, 2);
    HexDigitsAscii(r, 4);
    HexDigitsAscii(r, 8);
    AsciiWhole(EscapeText(r));
  }

  lemma PieceWhole(rs: seq<rune>, k: nat, l: Layout)
    requires k < |rs| && GoodLayout(rs, l)
    ensures Whole(Piece(rs, k, l))
  {
    hide EscapeText, Escaped, Encode, Whole;
    EscapeWhole(rs[k]);
    EncodeWhole(rs[k]);
    AsciiWhole(l.lineBreak + Blanks(l.indent));
    AsciiWhole(l.lineBreak + Blanks(l.indent) + [0x5C]);
    assert l.lineBreak + Blanks(l.indent) + [] == l.lineBreak + Blanks(l.indent);
  }

  lemma {:induction false} WrittenWhole(rs: seq<rune>, k: nat, l: Layout)
    requires k <= |rs| && GoodLayout(rs, l)
    ensures Whole(Written(rs, k, l))
    decreases |rs| - k
  {
    hide GoodLayout, Piece, Whole;
    if k == |rs| {
      AsciiWhole([]);
    } else {
      PieceWhole(rs, k, l);
      WrittenWhole(rs, k + 1, l);
      WholeAppend(Piece(rs, k, l), Written(rs, k + 1, l));
    }
  }

  // ------------------------------------------------------- the reader takes it

  /** Written without an escape is only what a stream may hold. */
  lemma RawIsAllowed(r: rune, unicode: bool, bom: bool)
    ensures !Escaped(r, unicode, bom) ==> R.Allowed(r)
  {
  }

  /** Octets below 127 that a stream may hold. */
  predicate Plain(s: seq<byte>) {
    forall i | 0 <= i < |s| :: 0x20 <= s[i] <= 0x7E || s[i] == 0x0A || s[i] == 0x0D
  }

  lemma {:induction false} PlainTaken(s: seq<byte>) returns (rs: seq<rune>)
    requires Plain(s)
    ensures EncodeAll(rs) == s && R.AllAllowed(rs)
    decreases |s|
  {
    if s == [] {
      rs := [];
    } else {
      var more := PlainTaken(s[1..]);
      assert s[1..] == EncodeAll(more) && Plain(s[1..]);
      rs := [s[0] as rune] + more;
      assert rs[1..] == more && Encode(rs[0]) == [s[0]];
      assert s == [s[0]] + s[1..];
    }
  }

  lemma {:induction false} HexDigitsPlain(v: nat, n: nat)
    ensures Plain(HexDigits(v, n))
  {
    if n > 0 {
      HexDigitsPlain(v / 16, n - 1);
    }
  }

  lemma EscapePlain(r: rune)
    ensures Plain(EscapeText(r))
  {
    hide HexDigits;
    HexDigitsPlain(r, 2);
    HexDigitsPlain(r, 4);
    HexDigitsPlain(r, 8);
  }

  lemma {:induction false} PieceTaken(rs: seq<rune>, k: nat, l: Layout) returns (ps: seq<rune>)
    requires k < |rs| && GoodLayout(rs, l)
    ensures EncodeAll(ps) == Piece(rs, k, l) && R.AllAllowed(ps)
  {
    hide EscapeText, Encode;
    if EscapedAt(rs, k, l) {
      EscapePlain(rs[k]);
      ps := PlainTaken(EscapeText(rs[k]));
    } else if rs[k] == 0x20 && k in l.folds {
      ps := PlainTaken(Piece(rs, k, l));
    } else {
      RawIsAllowed(rs[k], l.unicode, HasBom(rs));
      ps := [rs[k]];
      assert ps[1..] == [] && EncodeAll(ps) == Encode(rs[k]) + [];
    }
  }

  lemma {:induction false} WrittenTaken(rs: seq<rune>, k: nat, l: Layout) returns (ps: seq<rune>)
    requires k <= |rs| && GoodLayout(rs, l)
    ensures EncodeAll(ps) == Written(rs, k, l) && R.AllAllowed(ps)
    decreases |rs| - k
  {
    hide GoodLayout, Piece;
    if k == |rs| {
      ps := [];
    } else {
      var a := PieceTaken(rs, k, l);
      var b := WrittenTaken(rs, k + 1, l);
      ps := a + b;
      EncodeAllAppend(a, b);
      assert forall i | 0 <= i < |ps| :: R.Allowed(if i < |a| then a[i] else b[i - |a|]);
    }
  }

  /** A stream that consists of a double-quoted scalar, as the writer writes it, is accepted by the reader. */
  lemma {:induction false} WrittenIsAcceptable(rs: seq<rune>, l: Layout)
    requires GoodLayout(rs, l)
    ensures R.Acceptable([0x22] + Written(rs, 0, l) + [0x22])
  {
    var w := WrittenTaken(rs, 0, l);
    hide GoodLayout, Written;
    var q := PlainTaken([0x22]);
    EncodeAllAppend(q, w);
    EncodeAllAppend(q + w, q);
    var all := q + w + q;
    var stream := [0x22] + Written(rs, 0, l) + [0x22];
    assert R.AllAllowed(all);
    assert stream[0] == 0x22 && R.Body(stream) == EncodeAll(all);
  }
}
