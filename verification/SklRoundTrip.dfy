/** Parsing what has been printed gives the statement back: exactly for which names. */
module SklRoundTrip {
  import opened SklReader
  import opened SklLexer
  import opened SklParser

  // -------------------------------------------------------------- names

  /** An identifier that needs no quotes and is no keyword. */
  predicate IsBare(s: string) {
    s != "" && (IsLetter(s[0]) || s[0] == '_') && Lookup(s) == Ident
  }

  /** Full stops and bare identifiers up to the end; an identifier is there at the end, and
      identifiers do not touch. */
  predicate IsDots(s: string, k: nat)
    requires k < |s|
    decreases |s| - k
  {
    if s[k] == '.' then k + 1 < |s| && IsDots(s, k + 1)
    else
      var e := Run(s, k, IsIdentChar);
      e > k && IsBare(s[k..e]) && (e == |s| || (s[e] == '.' && IsDots(s, e)))
  }

  /** Names that survive: they begin and end with an identifier. */
  predicate IsName(s: string) {
    s != "" && s[0] != '.' && IsDots(s, 0)
  }

  // ---------------------------------------------------- names are parsed

  lemma PieceScan(t: string, p: nat, e: nat)
    requires p < e == Run(t, p, IsIdentChar) <= |t| && (IsLetter(t[p]) || t[p] == '_')
    requires e == |t| || (t[e] != EOF && t[e] != '"')
    ensures ScanAt(t, p) ==
      var next := if e == |t| then e + 2 else e;
      if Lookup(t[p..e]) != Ident then Scanned(Lookup(t[p..e]), p, "", next) else Scanned(Ident, p, t[p..e], next)
  {
    assert "" + t[p..e] == t[p..e];
    assert IsIdentChar(t[p]);
    hide Run, Lookup, TextFrom, NumberAt, OpAt;
    assert ScanAt(t, p) == IdentFrom(t, p, p, "");
    assert ScanAt(t, p) == IdentFrom(t, p, PastEnd(t, e), t[p..e]);
  }

  lemma {:induction false} DotsParse(t: string, p: nat, name: string, endPeriod: bool)
    requires p < |t| && IsDots(t, p)
    ensures NameFrom(t, p, name, endPeriod) == Ok(name + t[p..])
    decreases |t| - p
  {
    hide Lookup, TextFrom, NumberAt, OpAt, IdentFrom, Run, PosAt;
    if t[p] == '.' {
      FirstOfDots(t, p + 1);
      DotsParse(t, p + 1, name + ".", true);
      assert (name + ".") + t[p + 1..] == name + t[p..];
    } else {
      var e := Run(t, p, IsIdentChar);
      PieceScan(t, p, e);
      if e < |t| {
        DotsParse(t, e, name + t[p..e], false);
        assert (name + t[p..e]) + t[e..] == name + t[p..];
      } else {
        assert t[p..e] == t[p..];
        AtEnd(t, e + 2, name + t[p..]);
      }
    }
  }

  lemma AtEnd(t: string, p: nat, name: string)
    requires p >= |t|
    ensures NameFrom(t, p, name, false) == Ok(name)
    ensures NameFrom(t, p, name, true).Err?
  {
    assert ScanAt(t, p).tok == End;
    hide ScanAt;
  }

  lemma FirstOfDots(t: string, p: nat)
    requires p < |t| && IsDots(t, p)
    ensures !IsDigit(t[p]) && (t[p] == '.' || IsLetter(t[p]) || t[p] == '_')
  {
    if t[p] != '.' {
      var e := Run(t, p, IsIdentChar);
      assert t[p..e][0] == t[p];
    }
    hide Run, Lookup, IsDots;
  }

  /** A name behind a blank. */
  lemma NameParses(t: string, p: nat)
    requires 0 < p < |t| && t[p - 1] == ' ' && t[p] != '.' && IsDots(t, p)
    ensures NameAt(t, p - 1) == Ok(t[p..])
  {
    hide Lookup, TextFrom, NumberAt, OpAt, IdentFrom, NameFrom, PosAt;
    FirstOfDots(t, p);
    OneBlank(t, p);
    var e := Run(t, p, IsIdentChar);
    PieceScan(t, p, e);
    if e < |t| {
      DotsParse(t, e, t[p..e], false);
      assert t[p..e] + t[e..] == t[p..];
    } else {
      assert t[p..e] == t[p..];
      AtEnd(t, e + 2, t[p..]);
    }
  }

  lemma OneBlank(t: string, p: nat)
    requires 0 < p < |t| && t[p - 1] == ' ' && !IsWhitespace(t[p]) && t[p] != EOF
    ensures ScanAt(t, p - 1).tok == Ws && ScanAt(t, p - 1).next == p
  {
    assert Run(t, p, IsWhitespace) == p;
    assert Run(t, p - 1, IsWhitespace) == p;
    hide Run;
  }

  // ------------------------------------------------- nothing else survives

  function Least(a: nat, b: nat): nat {
    if a <= b then a else b
  }

  lemma {:induction false} TextShrinks(t: string, k: nat, ending: char, text: string)
    requires ending != EOF
    ensures match TextFrom(t, k, ending, text)
            case Closed(lit, next) => k < next <= |t| && |lit| <= |text| + (next - 1 - k)
            case _ => true
    decreases |t| - k
  {
    var c := At(t, k);
    if c != ending && c != EOF && c != '\n' {
      if c == '\\' {
        var d := At(t, k + 1);
        TextShrinks(t, k + 2, ending, text + "\n");
        TextShrinks(t, k + 2, ending, text + [d]);
      } else {
        TextShrinks(t, k + 1, ending, text + [c]);
      }
    }
  }

  /** An identifier is no longer than its source, and as long only if it is one bare piece. */
  lemma {:induction false} IdentShrinks(t: string, p: nat, q: nat, ident: string)
    requires p <= q && |ident| <= Least(q, |t|) - p && p < |t|
    ensures var s := IdentFrom(t, p, q, ident);
      s.tok == Ident ==>
        && |s.lit| <= Least(s.next, |t|) - p
        && (|s.lit| == Least(s.next, |t|) - p ==> |ident| == Least(q, |t|) - p && At(t, q) != '"')
    decreases |t| - q
  {
    var c := At(t, q);
    if c == '"' {
      TextShrinks(t, q + 1, c, "");
    } else if IsIdentChar(c) {
      var r := Run(t, q, IsIdentChar);
      IdentShrinks(t, p, PastEnd(t, r), ident + Slice(t, q, r));
    }
    hide TextFrom, Run, Lookup;
  }

  /** One bare identifier from `p` to `e`, and nothing behind it that would be swallowed. */
  ghost predicate IsPiece(t: string, p: nat, s: Scanned) {
    && p < |t| && s.tok == Ident
    && var e := Run(t, p, IsIdentChar);
       p < e <= |t| && IsBare(t[p..e]) && s.lit == t[p..e] && (e == |t| || s.next == e) && s.next >= e
  }

  lemma IdentExact(t: string, p: nat)
    requires p < |t| && ScanAt(t, p).tok == Ident
    ensures var s := ScanAt(t, p);
      |s.lit| <= Least(s.next, |t|) - p && (|s.lit| == Least(s.next, |t|) - p ==> IsPiece(t, p, s))
  {
    hide TextFrom, NumberAt, OpAt, Lookup, WhitespaceAt, Run;
    var s := ScanAt(t, p);
    IdentOnly(t, p);
    IdentShrinks(t, p, p, "");
    if |s.lit| == Least(s.next, |t|) - p {
      var e := Run(t, p, IsIdentChar);
      RunStarts(t, p);
      assert "" + t[p..e] == t[p..e];
      assert s == IdentFrom(t, p, PastEnd(t, e), t[p..e]);
      IdentShrinks(t, p, PastEnd(t, e), t[p..e]);
      IdentStops(t, p, PastEnd(t, e), t[p..e]);
    }
  }

  lemma RunStarts(t: string, p: nat)
    requires p < |t| && IsIdentChar(t[p])
    ensures p < Run(t, p, IsIdentChar) <= |t| && !IsIdentChar(At(t, Run(t, p, IsIdentChar)))
    ensures !IsIdentChar(EOF)
  {
  }

  /** An identifier token comes from an identifier or a quote. */
  lemma {:induction false} IdentOnly(t: string, p: nat)
    requires ScanAt(t, p).tok == Ident
    ensures ScanAt(t, p) == IdentFrom(t, p, p, "") && (IsLetter(At(t, p)) || At(t, p) == '_' || At(t, p) == '"')
  {
    hide WhitespaceAt, IdentFrom, NumberScan, StringAt, OpAt, IsLetter, IsDigit, IsWhitespace;
    NoNumber(t, p);
    NoOther(t, p);
  }

  lemma {:induction false} NoNumber(t: string, p: nat)
    ensures NumberScan(t, p).tok != Ident
  {
    hide Run, Slice, IsDigit;
  }

  lemma {:induction false} NoOther(t: string, p: nat)
    ensures WhitespaceAt(t, p).tok != Ident && OpAt(t, p).tok != Ident
    ensures At(t, p) == '\'' ==> StringAt(t, p).tok != Ident
  {
    hide Run, Slice, TextFrom, IsSingle;
  }

  lemma IdentStops(t: string, p: nat, q: nat, ident: string)
    requires At(t, q) != '"' && !IsIdentChar(At(t, q))
    ensures IdentFrom(t, p, q, ident) ==
      if Lookup(ident) != Ident then Scanned(Lookup(ident), p, "", PastEnd(t, q)) else Scanned(Ident, p, ident, PastEnd(t, q))
  {
    hide Lookup;
  }

  /** A parsed name is no longer than its source, and as long only if all of it is bare
      identifiers and full stops. */
  lemma {:induction false} NameShrinks(t: string, p: nat, name: string, endPeriod: bool)
    requires NameFrom(t, p, name, endPeriod).Ok?
    ensures var r := NameFrom(t, p, name, endPeriod).value;
      && |r| <= |name| + (if p < |t| then |t| - p else 0)
      && (p < |t| && |r| == |name| + |t| - p ==> IsDots(t, p))
    decreases |t| - p
  {
    hide ScanAt, PosAt, IsDots, Run, Lookup;
    NameAdvances(t, p);
    var s := ScanAt(t, p);
    if s.tok == Dot {
      NameShrinks(t, s.next, name + ".", true);
      DotIs(t, p);
      if p + 1 < |t| {
        DotsBehindDot(t, p);
      } else {
        AtEnd(t, p + 1, name + ".");
      }
    } else if s.tok == Ident {
      NameShrinks(t, s.next, name + s.lit, false);
      IdentExact(t, p);
      if IsPiece(t, p, s) {
        DotsBehindIdent(t, p, s);
      }
    }
  }

  lemma DotIs(t: string, p: nat)
    requires p < |t| && ScanAt(t, p).tok == Dot
    ensures t[p] == '.' && ScanAt(t, p).next == p + 1
  {
    hide TextFrom, Run, IdentFrom, Lookup;
    if IsLetter(t[p]) || t[p] == '_' || t[p] == '"' {
      NoDot(t, p, p, "");
    }
  }

  lemma {:induction false} NoDot(t: string, p: nat, q: nat, ident: string)
    ensures IdentFrom(t, p, q, ident).tok != Dot
    decreases |t| - q
  {
    if IsIdentChar(At(t, q)) {
      NoDot(t, p, PastEnd(t, Run(t, q, IsIdentChar)), ident + Slice(t, q, Run(t, q, IsIdentChar)));
    }
    hide TextFrom, Run;
  }

  lemma DotsBehindDot(t: string, p: nat)
    requires p + 1 < |t| && t[p] == '.'
    ensures IsDots(t, p + 1) ==> IsDots(t, p)
  {
    hide Run, Lookup;
  }

  lemma DotsBehindIdent(t: string, p: nat, s: Scanned)
    requires IsPiece(t, p, s)
    ensures s.next >= |t| ==> IsDots(t, p)
    ensures s.next < |t| && IsDots(t, s.next) ==> IsDots(t, p)
    ensures |s.lit| + (if s.next < |t| then |t| - s.next else 0) == |t| - p
  {
    hide Lookup;
    var e := Run(t, p, IsIdentChar);
    IdentAfterIdent(t, p);
    assert IsLetter(t[p]) || t[p] == '_' by { assert t[p..e][0] == t[p]; }
  }

  lemma IdentAfterIdent(t: string, p: nat)
    ensures var e := Run(t, p, IsIdentChar); e < |t| && t[e] != '.' ==> !IsDots(t, e)
  {
    var e := Run(t, p, IsIdentChar);
    if e < |t| {
      assert Run(t, e, IsIdentChar) == e;
    }
    hide Run, Lookup;
  }

  /** Behind a blank, a name as long as the rest of the text is the rest of the text. */
  lemma NameExactly(t: string, p: nat)
    requires 0 < p <= |t| && t[p - 1] == ' ' && NameAt(t, p - 1).Ok? && |NameAt(t, p - 1).value| >= |t| - p
    ensures p < |t| && t[p] != '.' && IsDots(t, p) && NameAt(t, p - 1).value == t[p..]
  {
    hide TextFrom, NumberAt, OpAt, IdentFrom, NameFrom, PosAt, Lookup, ScanAt, IsDots, Run;
    BlankAt(t, p);
    var q := ScanAt(t, p - 1).next;
    var s := ScanAt(t, q);
    assert s.tok == Ident;
    NameAdvances(t, q);
    NameShrinks(t, s.next, s.lit, false);
    IdentExact(t, q);
    if IsPiece(t, q, s) {
      DotsBehindIdent(t, q, s);
    }
    assert q == p && IsPiece(t, p, s);
    PieceIsNoDot(t, p, s);
    NameParses(t, p);
  }

  lemma BlankAt(t: string, p: nat)
    requires 0 < p <= |t| && t[p - 1] == ' '
    ensures ScanAt(t, p - 1).tok == Ws && ScanAt(t, p - 1).next >= p
  {
    hide TextFrom, IdentFrom;
    assert Run(t, p - 1, IsWhitespace) == Run(t, p, IsWhitespace);
    hide Run;
  }

  lemma PieceIsNoDot(t: string, p: nat, s: Scanned)
    requires IsPiece(t, p, s)
    ensures t[p] != '.'
  {
    var e := Run(t, p, IsIdentChar);
    assert t[p..e][0] == t[p];
    hide Run, Lookup;
  }

  // ------------------------------------------------------------ line ends

  lemma {:induction false} NormalPrefix(pre: string, m: string)
    requires forall i | 0 <= i < |pre| :: pre[i] != '\r'
    ensures Normal(pre + m) == pre + Normal(m)
  {
    if pre == "" {
      assert pre + m == m;
    } else {
      assert (pre + m)[1..] == pre[1..] + m;
      NormalPrefix(pre[1..], m);
    }
  }

  lemma {:induction false} NormalShrinks(m: string)
    ensures |Normal(m)| <= |m|
    decreases |m|
  {
    if m != "" {
      NormalShrinks(m[1..]);
      if |m| > 1 {
        NormalShrinks(m[2..]);
      }
    }
  }

  lemma {:induction false} DotsAreNormal(s: string, k: nat)
    requires k < |s| && IsDots(s, k)
    ensures forall i | k <= i < |s| :: s[i] != '\r'
    decreases |s| - k
  {
    hide Lookup;
    if s[k] == '.' {
      DotsAreNormal(s, k + 1);
    } else {
      var e := Run(s, k, IsIdentChar);
      if e < |s| {
        DotsAreNormal(s, e);
      }
      hide Run;
    }
  }

  // ---------------------------------------------------------------- shifts

  lemma {:induction false} RunShift(pre: string, m: string, k: nat)
    requires k <= |m|
    ensures Run(pre + m, |pre| + k, IsIdentChar) == |pre| + Run(m, k, IsIdentChar)
    decreases |m| - k
  {
    if k < |m| && IsIdentChar(m[k]) {
      RunShift(pre, m, k + 1);
    }
  }

  lemma {:induction false} DotsShift(pre: string, m: string, k: nat)
    requires k < |m|
    ensures IsDots(pre + m, |pre| + k) <==> IsDots(m, k)
    decreases |m| - k
  {
    hide Lookup, Run;
    if m[k] == '.' {
      if k + 1 < |m| {
        DotsShift(pre, m, k + 1);
      }
    } else {
      RunShift(pre, m, k);
      var e := Run(m, k, IsIdentChar);
      assert (pre + m)[|pre| + k..|pre| + e] == m[k..e];
      if k < e < |m| {
        DotsShift(pre, m, e);
      }
    }
  }

  // -------------------------------------------------------------- statements

  lemma WordAt(t: string, p: nat, w: string)
    requires w != "" && p + |w| <= |t| && t[p..p + |w|] == w && (forall i | 0 <= i < |w| :: IsLetter(w[i]))
    requires p + |w| == |t| || t[p + |w|] == ' '
    requires Lower(w) in KEYWORDS
    ensures ScanAt(t, p).tok == Keyword(Lower(w)) && (p + |w| < |t| ==> ScanAt(t, p).next == p + |w|)
  {
    hide Lower, TextFrom, IdentFrom, NumberAt, OpAt;
    forall i | p <= i < p + |w| ensures IsIdentChar(t[i]) {
      assert t[i] == t[p..p + |w|][i - p];
    }
    RunIs(t, p, p + |w|);
    assert t[p] == w[0];
    PieceScan(t, p, p + |w|);
  }

  lemma {:induction false} RunIs(t: string, p: nat, e: nat)
    requires p <= e <= |t| && (forall i | p <= i < e :: IsIdentChar(t[i])) && (e < |t| ==> !IsIdentChar(t[e]))
    ensures Run(t, p, IsIdentChar) == e
    decreases e - p
  {
    if p < e {
      RunIs(t, p + 1, e);
    }
  }

  lemma Words()
    ensures Lower("USE") == "use" && Lower("CREATE") == "create" && Lower("DROP") == "drop" && Lower("SHOW") == "show"
    ensures Lower("NAMESPACE") == "namespace" && Lower("NAMESPACES") == "namespaces"
  {
  }

  /** A keyword, and a name behind a blank. */
  lemma UseParses(m: string)
    ensures Parse("USE " + m) == Named(NameAt("USE " + m, 3), n => Use(n))
  {
    Words();
    hide ScanAt, NameAt, Lower;
    var t := "USE " + m;
    assert t[0..3] == "USE";
    WordAt(t, 0, "USE");
  }

  /** Two keywords with a blank between them. */
  lemma TwoWords(t: string, a: string, b: string)
    requires |a| + 1 + |b| <= |t| && t[..|a|] == a && t[|a|] == ' ' && t[|a| + 1..|a| + 1 + |b|] == b
    requires a != "" && b != "" && (forall i | 0 <= i < |a| :: IsLetter(a[i])) && (forall i | 0 <= i < |b| :: IsLetter(b[i]))
    requires |a| + 1 + |b| == |t| || t[|a| + 1 + |b|] == ' '
    requires Lower(a) in KEYWORDS && Lower(b) in KEYWORDS
    ensures Solid(t, 0).tok == Keyword(Lower(a)) && Solid(t, 0).next == |a|
    ensures var u := Solid(t, |a|);
      u.tok == Keyword(Lower(b)) && (|a| + 1 + |b| < |t| ==> u.next == |a| + 1 + |b|)
  {
    hide ScanAt, Lower;
    assert t[0..0 + |a|] == a;
    WordAt(t, 0, a);
    assert t[|a| + 1] == t[|a| + 1..|a| + 1 + |b|][0];
    OneBlank(t, |a| + 1);
    WordAt(t, |a| + 1, b);
  }

  lemma CreateParses(m: string)
    ensures Parse("CREATE NAMESPACE " + m) == Named(NameAt("CREATE NAMESPACE " + m, 16), n => CreateNamespace(n))
  {
    Words();
    hide ScanAt, NameAt, Lower, Solid;
    var t := "CREATE NAMESPACE " + m;
    assert t[..6] == "CREATE" && t[7..16] == "NAMESPACE";
    TwoWords(t, "CREATE", "NAMESPACE");
  }

  lemma DropParses(m: string)
    ensures Parse("DROP NAMESPACE " + m) == Named(NameAt("DROP NAMESPACE " + m, 14), n => DropNamespace(n))
  {
    Words();
    hide ScanAt, NameAt, Lower, Solid;
    var t := "DROP NAMESPACE " + m;
    assert t[..4] == "DROP" && t[5..14] == "NAMESPACE";
    TwoWords(t, "DROP", "NAMESPACE");
  }

  lemma ShowParses()
    ensures Parse("SHOW NAMESPACES") == Ok(ShowNamespaces)
  {
    Words();
    hide ScanAt, Lower, Solid;
    var t := "SHOW NAMESPACES";
    assert t[..4] == "SHOW" && t[5..15] == "NAMESPACES";
    TwoWords(t, "SHOW", "NAMESPACES");
  }

  /** The name of a statement comes back exactly if it is bare identifiers and full stops. */
  lemma NameReturns(pre: string, n: string)
    requires pre != "" && pre[|pre| - 1] == ' ' && forall i | 0 <= i < |pre| :: pre[i] != '\r'
    ensures Normal(pre + n) == pre + Normal(n)
    ensures NameAt(pre + Normal(n), |pre| - 1) == Ok(n) <==> IsName(n)
  {
    hide NameAt, IsDots, Normal;
    NormalPrefix(pre, n);
    NormalShrinks(n);
    var t := pre + Normal(n);
    assert t[|pre|..] == Normal(n);
    if NameAt(t, |pre| - 1) == Ok(n) {
      NameExactly(t, |pre|);
      DotsShift(pre, n, 0);
    }
    if IsName(n) {
      DotsAreNormal(n, 0);
      NormalPrefix(n, "");
      EmptyNormal();
      assert n + "" == n;
      DotsShift(pre, n, 0);
      NameParses(t, |pre|);
    }
  }

  lemma EmptyNormal()
    ensures Normal("") == ""
  {
  }

  /** Every statement can be printed; it is read back as the same statement exactly if its
      name, where it has one, is bare identifiers with full stops between them.  Everything
      else fails or changes: keywords, digits in front, blanks, quotes, a full stop at either end. */
  lemma RoundTripExactly(s: Statement)
    ensures Parse(Normal(Print(s))) == Ok(s) <==> s.ShowNamespaces? || IsName(s.name)
  {
    hide Parse, NameAt, IsName, Normal;
    match s
    case Use(n) =>
      NameReturns("USE ", n);
      UseParses(Normal(n));
    case CreateNamespace(n) =>
      NameReturns("CREATE NAMESPACE ", n);
      CreateParses(Normal(n));
    case DropNamespace(n) =>
      NameReturns("DROP NAMESPACE ", n);
      DropParses(Normal(n));
    case ShowNamespaces =>
      ShowIsNormal();
      ShowParses();
  }

  lemma ShowIsNormal()
    ensures Normal("SHOW NAMESPACES") == "SHOW NAMESPACES"
  {
    NormalPrefix("SHOW NAMESPACES", "");
    EmptyNormal();
    assert "SHOW NAMESPACES" + "" == "SHOW NAMESPACES";
    hide Normal;
  }

  /** The same through the parser, its token ring, the lexer and the reader's character ring. */
  method PrintAndParse(s: Statement) returns (r: Parsed<Statement>)
    ensures r == Ok(s) <==> s.ShowNamespaces? || IsName(s.name)
  {
    hide IsName, Parse, Normal, Print;
    var parser := new Parser(Print(s));
    r := parser.ParseStatement();
    RoundTripExactly(s);
  }
}
