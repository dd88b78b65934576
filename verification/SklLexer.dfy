/** Tokens of kappa's query language. */
module SklLexer {
  import opened SklReader

  datatype Tok =
    | Illegal | End | Ws | Dot
    | Ident | Number | Str | BadString | BadEscape | Duration
    | Op(text: string)
    | Keyword(word: string)

  const TYPES: set<string> := {
    "string", "uint8", "int8", "uint16", "int16", "uint32", "int32", "uint64", "int64",
    "float32", "float64", "timestamp", "boolean"
  }

  /** Reserved words, in lower case. */
  const KEYWORDS: set<string> := TYPES + {
    "and", "or", "true", "false",
    "add", "by", "clustered", "create", "describe", "drop", "for", "from", "insert", "limit", "log", "logs",
    "namespace", "namespaces", "offset", "on", "optional", "options", "password", "permission", "permissions",
    "remove", "required", "role", "roles", "select", "set", "show", "subscribe", "to", "type", "types",
    "unsubscribe", "update", "use", "user", "users", "using", "view", "views", "where", "with"
  }

  predicate IsWhitespace(ch: char) {
    ch == ' ' || ch == '\t' || ch == '\n'
  }

  predicate IsLetter(ch: char) {
    'a' <= ch <= 'z' || 'A' <= ch <= 'Z'
  }

  predicate IsDigit(ch: char) {
    '0' <= ch <= '9'
  }

  predicate IsIdentChar(ch: char) {
    IsLetter(ch) || IsDigit(ch) || ch == '_'
  }

  function LowerChar(ch: char): char {
    if 'A' <= ch <= 'Z' then ch - 'A' + 'a' else ch
  }

  function Lower(s: string): (r: string)
    ensures |r| == |s|
  {
    seq(|s|, i requires 0 <= i < |s| => LowerChar(s[i]))
  }

  function Lookup(ident: string): Tok {
    if Lower(ident) in KEYWORDS then Keyword(Lower(ident)) else Ident
  }

  // -------------------------------------------------------- specification

  /** A token, where it starts, its text, and where the next one starts. */
  datatype Scanned = Scanned(tok: Tok, start: nat, lit: string, next: nat)

  /** End of the characters of one kind from `q` on. */
  function Run(t: string, q: nat, kind: char -> bool): (r: nat)
    ensures q <= r && (q <= |t| ==> r <= |t|) && (q > |t| ==> r == q)
    ensures r < |t| ==> !kind(t[r])
    ensures forall k | q <= k < r :: k < |t| && kind(t[k])
    decreases |t| - q
  {
    if q < |t| && kind(t[q]) then Run(t, q + 1, kind) else q
  }

  /** The end of the input is swallowed by whatever runs into it. */
  function PastEnd(t: string, q: nat): nat {
    if At(t, q) == EOF then q + 1 else q
  }

  function Slice(t: string, q: nat, r: nat): string {
    if q <= r <= |t| then t[q..r] else ""
  }

  function WhitespaceAt(t: string, p: nat): Scanned {
    var r := Run(t, p, IsWhitespace);
    Scanned(Ws, p, Slice(t, p, r), PastEnd(t, r))
  }

  /** All the blanks there are, however many, up to a character of another kind or the end of the input. */
  lemma WhitespaceIsAll(t: string, p: nat, n: nat)
    requires 0 < n && p + n <= |t| && (forall k | p <= k < p + n :: IsWhitespace(t[k]))
    requires p + n < |t| ==> !IsWhitespace(t[p + n])
    ensures WhitespaceAt(t, p).tok == Ws && WhitespaceAt(t, p).start == p && WhitespaceAt(t, p).lit == t[p..p + n]
    ensures p + n < |t| && t[p + n] != EOF ==> WhitespaceAt(t, p).next == p + n
  {
    var r := Run(t, p, IsWhitespace);
    hide Run;
    assert r == p + n;
  }

  datatype Text = Closed(lit: string, next: nat) | Unclosed(lit: string, next: nat) | Misescaped(lit: string, next: nat)

  datatype TextKind = IsClosed | IsUnclosed | IsMisescaped

  function TextOf(kind: TextKind, lit: string, next: nat): Text {
    match kind
    case IsClosed => Closed(lit, next)
    case IsUnclosed => Unclosed(lit, next)
    case IsMisescaped => Misescaped(lit, next)
  }

  /** The rest of a quoted text. */
  function TextFrom(t: string, k: nat, ending: char, text: string): (r: Text)
    requires ending != EOF
    ensures r.next > k
    decreases |t| - k
  {
    var c := At(t, k);
    if c == ending then Closed(text, k + 1)
    else if c == EOF || c == '\n' then Unclosed(text, k + 1)
    else if c == '\\' then
      var d := At(t, k + 1);
      if d == 'n' then TextFrom(t, k + 2, ending, text + "\n")
      else if d == '\\' || d == '"' || d == '\'' then TextFrom(t, k + 2, ending, text + [d])
      else Misescaped([c, d], k + 2)
    else TextFrom(t, k + 1, ending, text + [c])
  }

  function StringAt(t: string, q: nat): Scanned
    requires At(t, q) != EOF
  {
    match TextFrom(t, q + 1, At(t, q), "")
    case Closed(lit, next) => Scanned(Str, q, lit, next)
    case Unclosed(lit, next) => Scanned(BadString, q, lit, next)
    case Misescaped(lit, next) => Scanned(BadEscape, next - 1, lit, next)
  }

  /** Bare pieces up to something else; a quoted text ends the identifier and replaces it. */
  function IdentFrom(t: string, p: nat, q: nat, ident: string): Scanned
    decreases |t| - q
  {
    var c := At(t, q);
    if c == '"' then
      var s := StringAt(t, q);
      if s.tok == Str then Scanned(Ident, p, s.lit, s.next) else s
    else if IsIdentChar(c) then
      var r := Run(t, q, IsIdentChar);
      IdentFrom(t, p, PastEnd(t, r), ident + Slice(t, q, r))
    else if Lookup(ident) != Ident then Scanned(Lookup(ident), p, "", PastEnd(t, q))
    else Scanned(Ident, p, ident, PastEnd(t, q))
  }

  lemma IdentSteps(t: string, p: nat, q: nat, ident: string)
    ensures At(t, q) == '"' && StringAt(t, q).tok == Str
            ==> IdentFrom(t, p, q, ident) == Scanned(Ident, p, StringAt(t, q).lit, StringAt(t, q).next)
    ensures At(t, q) == '"' && StringAt(t, q).tok != Str ==> IdentFrom(t, p, q, ident) == StringAt(t, q)
    ensures At(t, q) != '"' && IsIdentChar(At(t, q))
            ==> var r := Run(t, q, IsIdentChar);
                IdentFrom(t, p, q, ident) == IdentFrom(t, p, PastEnd(t, r), ident + Slice(t, q, r))
    ensures At(t, q) != '"' && !IsIdentChar(At(t, q))
            ==> IdentFrom(t, p, q, ident)
                == Scanned(Lookup(ident), p, if Lookup(ident) == Ident then ident else "", PastEnd(t, q))
  {
    hide Lookup, TextFrom;
  }

  lemma StringTokens(t: string, q: nat)
    requires At(t, q) != EOF
    ensures StringAt(t, q).tok in {Str, BadString, BadEscape}
    ensures StringAt(t, q).next > q
  {
    hide TextFrom;
  }

  /** Digits, and a unit if one follows. */
  function UnitAt(t: string, p: nat, r: nat, lit: string): Scanned {
    var c := At(t, r);
    if c == 'u' || c == '\U{00B5}' || c == 's' || c == 'h' || c == 'd' || c == 'w' then Scanned(Duration, p, lit + [c], r + 1)
    else if c == 'm' && At(t, r + 1) == 's' then Scanned(Duration, p, lit + ['m', 's'], r + 2)
    else if c == 'm' then Scanned(Duration, p, lit + ['m'], r + 1)
    else Scanned(Number, p, lit, r)
  }

  /** From `q` on: digits with a fraction, or with a unit. */
  function NumberAt(t: string, p: nat, q: nat, sign: string): Scanned {
    var r := Run(t, q, IsDigit);
    var lit := sign + Slice(t, q, r);
    var c := At(t, r);
    if c == '.' && IsDigit(At(t, r + 1)) then
      var s := Run(t, r + 2, IsDigit);
      Scanned(Number, p, lit + [c, At(t, r + 1)] + Slice(t, r + 2, s), s)
    else UnitAt(t, p, r, lit)
  }

  lemma NumberSteps(t: string, p: nat, q: nat, sign: string)
    ensures var r := Run(t, q, IsDigit);
            var lit := sign + Slice(t, q, r);
            if At(t, r) == '.' && IsDigit(At(t, r + 1)) then
              var s := Run(t, r + 2, IsDigit);
              NumberAt(t, p, q, sign) == Scanned(Number, p, lit + ['.', At(t, r + 1)] + Slice(t, r + 2, s), s)
            else NumberAt(t, p, q, sign) == UnitAt(t, p, r, lit)
  {
    hide Run, Slice, UnitAt, IsDigit, At;
  }

  lemma DigitInside(t: string, k: nat)
    requires IsDigit(At(t, k))
    ensures k < |t|
  {
  }

  predicate StartsNumber(c: char) {
    IsDigit(c) || c == '.' || c == '+' || c == '-'
  }

  function NumberScan(t: string, p: nat): Scanned {
    var c := At(t, p);
    if c == '+' || c == '-' then
      if IsDigit(At(t, p + 1)) || (At(t, p + 1) == '.' && IsDigit(At(t, p + 2))) then NumberAt(t, p, p + 1, [c])
      else Scanned(Op([c]), p, "", p + 1)
    else if c == '.' && !IsDigit(At(t, p + 1)) then Scanned(Illegal, p, ".", p + 1)
    else NumberAt(t, p, p, "")
  }

  predicate AllDigits(s: string) {
    forall k | 0 <= k < |s| :: IsDigit(s[k])
  }

  /** A number as it is written: a sign perhaps, digits, and a fraction or a unit. */
  predicate IsNumeral(sign: string, whole: string, fraction: string, unit: string) {
    && sign in {"", "+", "-"} && AllDigits(whole) && AllDigits(fraction) && whole != ""
    && unit in {"", "u", "\U{00B5}", "s", "h", "d", "w", "m", "ms"} && (fraction != "" ==> unit == "")
  }

  function Numeral(sign: string, whole: string, fraction: string, unit: string): string {
    sign + whole + (if fraction == "" then unit else "." + fraction)
  }

  /** Behind a number: nothing that would go on with it. */
  predicate Apart(c: char) {
    !IsDigit(c) && !IsLetter(c) && c != '.' && c != '\U{00B5}'
  }

  lemma RunIs(t: string, q: nat, n: nat)
    requires q + n <= |t| && (forall k | q <= k < q + n :: IsDigit(t[k])) && !IsDigit(At(t, q + n))
    ensures Run(t, q, IsDigit) == q + n && Slice(t, q, q + n) == t[q..q + n]
  {
    var r := Run(t, q, IsDigit);
    hide Run;
    assert r == q + n;
  }

  /** A number or a duration is scanned whole, from its sign to its fraction or unit. */
  lemma NumeralIsWhole(t: string, p: nat, sign: string, whole: string, fraction: string, unit: string)
    requires IsNumeral(sign, whole, fraction, unit)
    requires var lit := Numeral(sign, whole, fraction, unit);
      p + |lit| <= |t| && t[p..p + |lit|] == lit && Apart(At(t, p + |lit|))
    ensures var lit := Numeral(sign, whole, fraction, unit);
      ScanAt(t, p) == Scanned(if unit == "" then Number else Duration, p, lit, p + |lit|)
  {
    hide Run, IdentFrom, WhitespaceAt, OpAt, StringAt, NumberAt, Numeral;
    var lit := Numeral(sign, whole, fraction, unit);
    NumeralParts(t, p, sign, whole, fraction, unit);
    if fraction == "" {
      UnitPart(t, p, sign, whole, unit);
    } else {
      FractionPart(t, p, sign, whole, fraction);
    }
    assert IsDigit(t[p + |sign|]) && (sign != "" ==> t[p] == sign[0]);
  }

  lemma NumeralParts(t: string, p: nat, sign: string, whole: string, fraction: string, unit: string)
    requires AllDigits(whole) && AllDigits(fraction)
    requires var lit := Numeral(sign, whole, fraction, unit); p + |lit| <= |t| && t[p..p + |lit|] == lit
    ensures var lit, r := Numeral(sign, whole, fraction, unit), p + |sign| + |whole|;
      && r <= |t| && t[p..p + |sign|] == sign && t[p + |sign|..r] == whole && (forall k | p + |sign| <= k < r :: IsDigit(t[k]))
      && |lit| == |sign| + |whole| + (if fraction == "" then |unit| else 1 + |fraction|)
      && (fraction == "" ==> t[r..r + |unit|] == unit && lit == sign + whole + unit)
      && (fraction != "" ==> t[r] == '.' && t[r + 1..r + 1 + |fraction|] == fraction && lit == sign + whole + ("." + fraction)
                             && forall k | r + 1 <= k < r + 1 + |fraction| :: IsDigit(t[k]))
  {
    hide IsDigit, AllDigits;
    var tail := if fraction == "" then unit else "." + fraction;
    assert Numeral(sign, whole, fraction, unit) == sign + whole + tail;
    hide Numeral;
    ThreeParts(t, p, sign, whole, tail);
    DigitsThere(t, p + |sign|, whole);
    if fraction != "" {
      PointAndDigits(t, p + |sign| + |whole|, fraction);
    }
  }

  lemma PointAndDigits(t: string, r: nat, fraction: string)
    requires AllDigits(fraction) && r + 1 + |fraction| <= |t| && t[r..r + 1 + |fraction|] == "." + fraction
    ensures t[r] == '.' && t[r + 1..r + 1 + |fraction|] == fraction && forall k | r + 1 <= k < r + 1 + |fraction| :: IsDigit(t[k])
  {
    hide IsDigit, AllDigits;
    SubPart(t, r, "." + fraction, 1, 1 + |fraction|);
    assert ("." + fraction)[1..1 + |fraction|] == fraction;
    assert t[r] == t[r..r + 1 + |fraction|][0];
    DigitsThere(t, r + 1, fraction);
  }

  lemma DigitsThere(t: string, q: nat, s: string)
    requires AllDigits(s) && q + |s| <= |t| && t[q..q + |s|] == s
    ensures forall k | q <= k < q + |s| :: IsDigit(t[k])
  {
    forall k | q <= k < q + |s| ensures IsDigit(t[k]) {
      assert t[k] == s[k - q];
    }
  }

  lemma ThreeParts(t: string, p: nat, a: string, b: string, c: string)
    requires p + |a + b + c| <= |t| && t[p..p + |a + b + c|] == a + b + c
    ensures t[p..p + |a|] == a && t[p + |a|..p + |a| + |b|] == b && t[p + |a| + |b|..p + |a| + |b| + |c|] == c
    ensures |b| == 1 ==> t[p + |a|] == b[0]
  {
    var lit := a + b + c;
    assert lit[..|a|] == a && lit[|a|..|a| + |b|] == b && lit[|a| + |b|..] == c;
    SubPart(t, p, lit, 0, |a|);
    SubPart(t, p, lit, |a|, |a| + |b|);
    SubPart(t, p, lit, |a| + |b|, |lit|);
    if |b| == 1 {
      assert t[p + |a|] == t[p + |a|..p + |a| + |b|][0];
    }
  }

  lemma SubPart(t: string, p: nat, lit: string, i: nat, j: nat)
    requires i <= j <= |lit| && p + |lit| <= |t| && t[p..p + |lit|] == lit
    ensures t[p + i..p + j] == lit[i..j]
  {
    var part := t[p..p + |lit|];
    forall k | 0 <= k < j - i ensures t[p + i..p + j][k] == lit[i..j][k] {
      assert part[i + k] == t[p + i + k];
    }
  }

  lemma UnitPart(t: string, p: nat, sign: string, whole: string, unit: string)
    requires IsNumeral(sign, whole, "", unit)
    requires var r := p + |sign| + |whole|;
      && r + |unit| <= |t| && t[p + |sign|..r] == whole && (forall k | p + |sign| <= k < r :: IsDigit(t[k]))
      && t[r..r + |unit|] == unit && Apart(At(t, r + |unit|))
    ensures NumberAt(t, p, p + |sign|, sign)
         == Scanned(if unit == "" then Number else Duration, p, sign + whole + unit, p + |sign| + |whole| + |unit|)
  {
    hide Run;
    var r := p + |sign| + |whole|;
    assert forall k | 0 <= k < |unit| :: t[r + k] == unit[k];
    RunIs(t, p + |sign|, |whole|);
    assert unit == "ms" ==> sign + whole + ['m', 's'] == sign + whole + unit;
  }

  lemma FractionPart(t: string, p: nat, sign: string, whole: string, fraction: string)
    requires IsNumeral(sign, whole, fraction, "") && fraction != ""
    requires var r := p + |sign| + |whole|;
      && r + 1 + |fraction| <= |t| && t[p + |sign|..r] == whole && (forall k | p + |sign| <= k < r :: IsDigit(t[k]))
      && t[r] == '.' && t[r + 1..r + 1 + |fraction|] == fraction && (forall k | r + 1 <= k < r + 1 + |fraction| :: IsDigit(t[k]))
      && Apart(At(t, r + 1 + |fraction|))
    ensures NumberAt(t, p, p + |sign|, sign)
         == Scanned(Number, p, sign + whole + ("." + fraction), p + |sign| + |whole| + 1 + |fraction|)
  {
    hide Run;
    var r := p + |sign| + |whole|;
    RunIs(t, p + |sign|, |whole|);
    RunIs(t, r + 2, |fraction| - 1);
    assert t[r + 2..r + 1 + |fraction|] == fraction[1..];
    assert t[r + 1] == fraction[0];
    assert ['.', fraction[0]] + fraction[1..] == "." + fraction;
    assert sign + whole + ['.', fraction[0]] + fraction[1..] == sign + whole + (['.', fraction[0]] + fraction[1..]);
  }

  predicate IsSingle(c: char) {
    c in "*/()[]{},;:^|&%$#@"
  }

  function OpAt(t: string, p: nat): Scanned {
    var c, d := At(t, p), At(t, p + 1);
    if c == '=' then if d == '~' then Scanned(Op("=~"), p, "", p + 2) else Scanned(Op("="), p, "", p + 1)
    else if c == '!' then
      if d == '=' then Scanned(Op("!="), p, "", p + 2)
      else if d == '~' then Scanned(Op("!~"), p, "", p + 2)
      else Scanned(Illegal, p, [c], p + 1)
    else if c == '>' then
      if d == '=' then Scanned(Op(">="), p, "", p + 2)
      else if d == '>' then Scanned(Op(">>"), p, "", p + 2)
      else Scanned(Op(">"), p, "", p + 1)
    else if c == '<' then
      if d == '=' then Scanned(Op("<="), p, "", p + 2)
      else if d == '>' then Scanned(Op("!="), p, "", p + 2)
      else if d == '<' then Scanned(Op("<<"), p, "", p + 2)
      else Scanned(Op("<"), p, "", p + 1)
    else if IsSingle(c) then Scanned(Op([c]), p, "", p + 1)
    else Scanned(Illegal, p, [c], p + 1)
  }

  /** The token at `p`. */
  function ScanAt(t: string, p: nat): Scanned {
    var c := At(t, p);
    if IsWhitespace(c) then WhitespaceAt(t, p)
    else if IsLetter(c) || c == '_' || c == '"' then IdentFrom(t, p, p, "")
    else if IsDigit(c) then NumberScan(t, p)
    else if c == EOF then Scanned(End, p, "", p + 1)
    else if c == '\'' then StringAt(t, p)
    else if c == '.' then if IsDigit(At(t, p + 1)) then NumberScan(t, p) else Scanned(Dot, p, "", p + 1)
    else if c == '+' || c == '-' then NumberScan(t, p)
    else OpAt(t, p)
  }

  // ---------------------------------------------------------- the program

  class Scanner {
    const r: Reader

    constructor (input: string)
      ensures r.Valid() && fresh(r) && fresh(r.Repr()) && r.Text() == Normal(input) && r.Cursor() == 0
    {
      r := new Reader(input);
    }

    /** Consume whitespace; its first character has been read. */
    method ScanWhitespace() returns (tok: Tok, pos: Pos, lit: string)
      requires r.Valid() && r.Cursor() > 0 && IsWhitespace(At(r.Text(), r.Cursor() - 1))
      modifies r, r.ring, r.ring.buf
      ensures r.Valid()
      ensures var s := WhitespaceAt(r.Text(), old(r.Cursor()) - 1);
        tok == s.tok && pos == PosAt(r.Text(), s.start) && lit == s.lit && r.Cursor() == s.next
    {
      hide Normal, PosAt, Reader.Valid, Reader.Cursor, EofBefore;
      ghost var t, p := r.Text(), r.Cursor() - 1;
      var ch, at;
      ch, pos := r.Curr();
      lit := [ch];
      while true
        invariant r.Valid() && p < r.Cursor() <= |t| && lit == t[p..r.Cursor()]
        invariant Run(t, p, IsWhitespace) == Run(t, r.Cursor(), IsWhitespace)
        decreases |t| - r.Cursor()
      {
        ch, at := r.Read();
        if ch == EOF {
          break;
        } else if !IsWhitespace(ch) {
          r.Unread();
          break;
        } else {
          lit := lit + [ch];
        }
      }
      tok := Ws;
    }

    /** Consume letters, digits and underscores. */
    method ScanBareIdent() returns (lit: string)
      requires r.Valid() && r.Cursor() <= |r.Text()|
      modifies r, r.ring, r.ring.buf
      ensures r.Valid()
      ensures var q := old(r.Cursor());
        var e := Run(r.Text(), q, IsIdentChar);
        lit == Slice(r.Text(), q, e) && r.Cursor() == PastEnd(r.Text(), e)
    {
      hide Normal, PosAt, Reader.Valid, Reader.Cursor, EofBefore;
      ghost var t, q := r.Text(), r.Cursor();
      lit := "";
      var ch, at;
      while true
        invariant r.Valid() && q <= r.Cursor() <= |t| && lit == t[q..r.Cursor()]
        invariant Run(t, q, IsIdentChar) == Run(t, r.Cursor(), IsIdentChar)
        decreases |t| - r.Cursor()
      {
        ch, at := r.Read();
        if ch == EOF {
          break;
        } else if !IsIdentChar(ch) {
          r.Unread();
          break;
        } else {
          lit := lit + [ch];
        }
      }
    }

    method ScanDigits() returns (lit: string)
      requires r.Valid() && r.Cursor() <= |r.Text()|
      modifies r, r.ring, r.ring.buf
      ensures r.Valid() && 1 <= r.Back()
      ensures var q := old(r.Cursor());
        var e := Run(r.Text(), q, IsDigit);
        lit == Slice(r.Text(), q, e) && r.Cursor() == e
    {
      hide Normal, PosAt, Reader.Valid, Reader.Cursor, EofBefore;
      ghost var t, q := r.Text(), r.Cursor();
      lit := "";
      var ch, at;
      while true
        invariant r.Valid() && q <= r.Cursor() <= |t| && lit == t[q..r.Cursor()]
        invariant Run(t, q, IsDigit) == Run(t, r.Cursor(), IsDigit)
        decreases |t| - r.Cursor()
      {
        ch, at := r.Read();
        if !IsDigit(ch) {
          r.Unread();
          break;
        }
        lit := lit + [ch];
      }
    }

    /** The text behind a quote, up to the same quote. */
    method ScanText(ending: char) returns (kind: TextKind, lit: string)
      requires r.Valid() && ending != EOF
      modifies r, r.ring, r.ring.buf
      ensures r.Valid() && r.Back() <= 1
      ensures TextFrom(r.Text(), old(r.Cursor()), ending, "") == TextOf(kind, lit, r.Cursor())
    {
      hide Normal, PosAt, Reader.Valid, Reader.Cursor, EofBefore;
      ghost var t, q := r.Text(), r.Cursor();
      var text, ch, at := "", EOF, Pos(0, 0);
      while true
        invariant r.Valid() && q <= r.Cursor() && (r.Cursor() > q ==> r.Cursor() <= |t| + 1)
        invariant TextFrom(t, q, ending, "") == TextFrom(t, r.Cursor(), ending, text)
        decreases |t| + 2 - r.Cursor()
      {
        ch, at := r.Read();
        if ch == ending {
          return IsClosed, text;
        } else if ch == EOF || ch == '\n' {
          return IsUnclosed, text;
        } else if ch == '\\' {
          var next;
          next, at := r.Read();
          if next == 'n' {
            text := text + "\n";
          } else if next == '\\' {
            text := text + ['\\'];
          } else if next == '"' {
            text := text + ['"'];
          } else if next == '\'' {
            text := text + ['\''];
          } else {
            return IsMisescaped, [ch, next];
          }
        } else {
          text := text + [ch];
        }
      }
    }

    /** A quoted text whose quote has been read. */
    method ScanString(ghost q: nat) returns (tok: Tok, pos: Pos, lit: string)
      requires r.Valid() && r.Cursor() == q + 1 && r.Back() <= 1 && At(r.Text(), q) != EOF
      modifies r, r.ring, r.ring.buf
      ensures r.Valid() && r.Back() <= 1
      ensures var s := StringAt(r.Text(), q);
        tok == s.tok && pos == PosAt(r.Text(), s.start) && lit == s.lit && r.Cursor() == s.next
    {
      hide Normal, PosAt, Reader.Valid, Reader.Cursor, EofBefore, TextFrom;
      r.Unread();
      var ending, at := r.Read();
      pos := at;
      var kind;
      kind, lit := ScanText(ending);
      match kind
      case IsClosed => tok := Str;
      case IsUnclosed => tok := BadString;
      case IsMisescaped =>
        ending, pos := r.Curr();
        tok := BadEscape;
    }

    /** An identifier, a keyword, or a quoted identifier. */
    method ScanIdent() returns (tok: Tok, pos: Pos, lit: string)
      requires r.Valid()
      modifies r, r.ring, r.ring.buf
      ensures r.Valid()
      ensures var s := IdentFrom(r.Text(), old(r.Cursor()), old(r.Cursor()), "");
        tok == s.tok && pos == PosAt(r.Text(), s.start) && lit == s.lit && r.Cursor() == s.next
    {
      hide Normal, PosAt, Reader.Valid, Reader.Cursor, EofBefore, StringAt, IdentFrom, Lookup;
      ghost var t, p := r.Text(), r.Cursor();
      var ch;
      ch, pos := r.Read();
      r.Unread();
      var ident, at := "", pos;
      while true
        invariant r.Valid() && p <= r.Cursor() && pos == PosAt(t, p)
        invariant IdentFrom(t, p, p, "") == IdentFrom(t, p, r.Cursor(), ident)
        decreases |t| + 1 - r.Cursor()
      {
        IdentSteps(t, p, r.Cursor(), ident);
        ch, at := r.Read();
        if ch == EOF {
          break;
        } else if ch == '"' {
          StringTokens(t, r.Cursor() - 1);
          tok, at, lit := ScanString(r.Cursor() - 1);
          if tok == BadString || tok == BadEscape { return tok, at, lit; }
          return Ident, pos, lit;
        } else if IsIdentChar(ch) {
          r.Unread();
          var more := ScanBareIdent();
          ident := ident + more;
        } else {
          r.Unread();
          break;
        }
      }
      tok, lit := Lookup(ident), ident;
      if tok != Ident {
        lit := "";
      }
    }

    /** A number or a duration.  The character read last is its first. */
    method ScanNumber() returns (tok: Tok, pos: Pos, lit: string)
      requires r.Valid() && 0 < r.Cursor() <= |r.Text()| && r.Back() <= 1 && StartsNumber(At(r.Text(), r.Cursor() - 1))
      modifies r, r.ring, r.ring.buf
      ensures r.Valid()
      ensures var s := NumberScan(r.Text(), old(r.Cursor()) - 1);
        tok == s.tok && pos == PosAt(r.Text(), s.start) && lit == s.lit && r.Cursor() == s.next
    {
      hide Normal, PosAt, Reader.Valid, Reader.Cursor, EofBefore, NumberAt;
      ghost var start := r.Cursor() - 1;
      var ch, ch1, ch2, at;
      ch, pos := r.Curr();
      var sign := "";
      if ch == '+' || ch == '-' {
        ch1, at := r.Read();
        ch2, at := r.Read();
        r.Unread();
        r.Unread();
        if IsDigit(ch1) || (ch1 == '.' && IsDigit(ch2)) {
          sign := [ch];
        } else {
          return Op([ch]), pos, "";
        }
      } else if ch == '.' {
        ch1, at := r.Read();
        r.Unread();
        if !IsDigit(ch1) { return Illegal, pos, "."; }
        r.Unread();
      } else {
        r.Unread();
      }
      tok, lit := ScanNumberText(start, sign);
    }

    /** Digits, a fraction, or a unit. */
    method ScanNumberText(ghost p: nat, sign: string) returns (tok: Tok, lit: string)
      requires r.Valid() && r.Cursor() <= |r.Text()|
      modifies r, r.ring, r.ring.buf
      ensures r.Valid()
      ensures var s := NumberAt(r.Text(), p, old(r.Cursor()), sign); tok == s.tok && lit == s.lit && r.Cursor() == s.next && s.start == p
    {
      hide Normal, PosAt, At, Reader.Valid, Reader.Cursor, EofBefore, NumberAt, UnitAt, Run, Slice, IsDigit;
      ghost var t, q := r.Text(), r.Cursor();
      NumberSteps(t, p, q, sign);
      var digits := ScanDigits();
      lit := sign + digits;
      var ch0, ch1, at;
      ch0, at := r.Read();
      if ch0 == '.' {
        ch1, at := r.Read();
        if IsDigit(ch1) {
          DigitInside(t, r.Cursor() - 1);
          lit := lit + [ch0, ch1];
          digits := ScanDigits();
          return Number, lit + digits;
        }
        r.Unread();
        r.Unread();
      } else {
        r.Unread();
      }
      tok, lit := ScanUnit(p, lit);
    }

    /** A number without a fraction may be a duration. */
    method ScanUnit(ghost p: nat, digits: string) returns (tok: Tok, lit: string)
      requires r.Valid()
      modifies r, r.ring, r.ring.buf
      ensures r.Valid()
      ensures var s := UnitAt(r.Text(), p, old(r.Cursor()), digits); tok == s.tok && lit == s.lit && r.Cursor() == s.next && s.start == p
    {
      hide Normal, PosAt, Reader.Valid, Reader.Cursor, EofBefore;
      var ch0, ch1, at;
      ch0, at := r.Read();
      if ch0 == 'u' || ch0 == '\U{00B5}' || ch0 == 's' || ch0 == 'h' || ch0 == 'd' || ch0 == 'w' {
        return Duration, digits + [ch0];
      } else if ch0 == 'm' {
        lit := digits + [ch0];
        ch1, at := r.Read();
        if ch1 == 's' {
          lit := lit + [ch1];
        } else {
          r.Unread();
        }
        return Duration, lit;
      }
      r.Unread();
      return Number, digits;
    }

    /** The next token. */
    method Scan() returns (tok: Tok, pos: Pos, lit: string)
      requires r.Valid()
      modifies r, r.ring, r.ring.buf
      ensures r.Valid()
      ensures var s := ScanAt(r.Text(), old(r.Cursor()));
        tok == s.tok && pos == PosAt(r.Text(), s.start) && lit == s.lit && r.Cursor() == s.next
    {
      hide Normal, PosAt, Reader.Valid, Reader.Cursor, EofBefore, NumberAt, IdentFrom, WhitespaceAt, StringAt, OpAt,
           Run;
      var ch0;
      ch0, pos := r.Read();
      if IsWhitespace(ch0) {
        tok, pos, lit := ScanWhitespace();
        return;
      } else if IsLetter(ch0) || ch0 == '_' {
        r.Unread();
        tok, pos, lit := ScanIdent();
        return;
      } else if IsDigit(ch0) {
        tok, pos, lit := ScanNumber();
        return;
      }
      if ch0 == EOF {
        return End, pos, "";
      } else if ch0 == '"' {
        r.Unread();
        tok, pos, lit := ScanIdent();
      } else if ch0 == '\'' {
        tok, pos, lit := ScanString(r.Cursor() - 1);
      } else if ch0 == '.' {
        var ch1, at := r.Read();
        r.Unread();
        if IsDigit(ch1) {
          tok, pos, lit := ScanNumber();
        } else {
          return Dot, pos, "";
        }
      } else if ch0 == '+' || ch0 == '-' {
        tok, pos, lit := ScanNumber();
      } else {
        tok, lit := ScanOp(ch0);
      }
    }

    /** Punctuation whose first character has been read. */
    method ScanOp(ch0: char) returns (tok: Tok, lit: string)
      requires r.Valid() && r.Cursor() > 0 && r.Back() <= 1 && ch0 == At(r.Text(), r.Cursor() - 1)
      modifies r, r.ring, r.ring.buf
      ensures r.Valid()
      ensures var s := OpAt(r.Text(), old(r.Cursor()) - 1); tok == s.tok && lit == s.lit && r.Cursor() == s.next && s.start == old(r.Cursor()) - 1
    {
      hide Normal, PosAt, Reader.Valid, Reader.Cursor, EofBefore;
      var ch1, at;
      match ch0
      case '=' =>
        ch1, at := r.Read();
        if ch1 == '~' { return Op("=~"), ""; }
        r.Unread();
        return Op("="), "";
      case '!' =>
        ch1, at := r.Read();
        if ch1 == '=' { return Op("!="), ""; }
        if ch1 == '~' { return Op("!~"), ""; }
        r.Unread();
        return Illegal, [ch0];
      case '>' =>
        ch1, at := r.Read();
        if ch1 == '=' { return Op(">="), ""; }
        if ch1 == '>' { return Op(">>"), ""; }
        r.Unread();
        return Op(">"), "";
      case '<' =>
        ch1, at := r.Read();
        if ch1 == '=' { return Op("<="), ""; }
        if ch1 == '>' { return Op("!="), ""; }
        if ch1 == '<' { return Op("<<"), ""; }
        r.Unread();
        return Op("<"), "";
      case _ =>
        if IsSingle(ch0) { return Op([ch0]), ""; }
        return Illegal, [ch0];
    }
  }
}
