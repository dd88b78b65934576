/** Statements about namespaces: how they are parsed and how they are printed. */
module SklParser {
  import opened SklReader
  import opened SklLexer

  datatype Statement = Use(name: string) | CreateNamespace(name: string) | DropNamespace(name: string) | ShowNamespaces

  datatype ParseError = ParseError(found: string, expected: seq<string>, pos: Pos)

  datatype Parsed<T> = Ok(value: T) | Err(error: ParseError)

  // ------------------------------------------------------------- printing

  function Print(s: Statement): string {
    match s
    case Use(name) => "USE " + name
    case CreateNamespace(name) => "CREATE NAMESPACE " + name
    case DropNamespace(name) => "DROP NAMESPACE " + name
    case ShowNamespaces => "SHOW NAMESPACES"
  }

  function UpperChar(ch: char): char {
    if 'a' <= ch <= 'z' then ch - 'a' + 'A' else ch
  }

  function Upper(s: string): string {
    seq(|s|, i requires 0 <= i < |s| => UpperChar(s[i]))
  }

  function TokenText(tok: Tok): string {
    match tok
    case Illegal => "ILLEGAL"
    case End => "EOF"
    case Ws => "WS"
    case Dot => "."
    case Ident => "IDENT"
    case Number => "NUM"
    case Str => "TEXTUAL"
    case BadString => "BADSTRING"
    case BadEscape => "BADESCAPE"
    case Duration => ""
    case Op(text) => if text == "%" then "%%" else text
    case Keyword(word) => if word in TYPES + {"true", "false"} then word else Upper(word)
  }

  /** What an error message shows of a token. */
  function Shown(tok: Tok, lit: string): string {
    if lit != "" && tok != Ws then lit else TokenText(tok)
  }

  function Unexpected<T>(t: string, s: Scanned, expected: seq<string>): Parsed<T> {
    Err(ParseError(Shown(s.tok, s.lit), expected, PosAt(t, s.start)))
  }

  // -------------------------------------------------------------- parsing

  /** The next token, or the one behind it if it is whitespace. */
  function Solid(t: string, p: nat): Scanned {
    var s := ScanAt(t, p);
    if s.tok == Ws then ScanAt(t, s.next) else s
  }

  /** Identifiers and full stops, in any order; not a full stop at the end. */
  function NameFrom(t: string, p: nat, name: string, endPeriod: bool): Parsed<string>
    decreases |t| - p
  {
    NameAdvances(t, p);
    var s := ScanAt(t, p);
    if s.tok == Dot then NameFrom(t, s.next, name + ".", true)
    else if s.tok == Ident then NameFrom(t, s.next, name + s.lit, false)
    else if endPeriod then Unexpected(t, s, ["identifier"])
    else Ok(name)
  }

  function NameAt(t: string, p: nat): Parsed<string> {
    var s := Solid(t, p);
    if s.tok != Ident then Unexpected(t, s, ["namespace"]) else NameFrom(t, s.next, s.lit, false)
  }

  function Named(name: Parsed<string>, make: string -> Statement): Parsed<Statement> {
    match name
    case Ok(n) => Ok(make(n))
    case Err(e) => Err(e)
  }

  function Parse(t: string): Parsed<Statement> {
    var s := Solid(t, 0);
    if s.tok == Keyword("use") then Named(NameAt(t, s.next), n => Use(n))
    else if s.tok == Keyword("create") || s.tok == Keyword("drop") then
      var u := Solid(t, s.next);
      if u.tok != Keyword("namespace") then Unexpected(t, u, ["NAMESPACE"])
      else Named(NameAt(t, u.next), n => if s.tok == Keyword("create") then CreateNamespace(n) else DropNamespace(n))
    else if s.tok == Keyword("show") then
      var u := Solid(t, s.next);
      if u.tok != Keyword("namespaces") then Unexpected(t, u, ["NAMESPACES"]) else Ok(ShowNamespaces)
    else Unexpected(t, s, ["USE", "CREATE", "SHOW", "DROP"])
  }

  lemma {:induction false} IdentForward(t: string, p: nat, q: nat, ident: string)
    ensures q <= IdentFrom(t, p, q, ident).next
    decreases |t| - q
  {
    if IsIdentChar(At(t, q)) {
      IdentForward(t, p, PastEnd(t, Run(t, q, IsIdentChar)), ident + Slice(t, q, Run(t, q, IsIdentChar)));
    }
    hide TextFrom;
  }

  /** Identifiers and full stops are made of characters. */
  lemma NameAdvances(t: string, p: nat)
    ensures var s := ScanAt(t, p); s.tok == Dot || s.tok == Ident ==> p < |t| && p < s.next
  {
    if p < |t| {
      var c := At(t, p);
      if IsLetter(c) || c == '_' {
        var r := Run(t, p, IsIdentChar);
        IdentForward(t, p, PastEnd(t, r), "" + Slice(t, p, r));
      }
    }
    hide TextFrom, Run, Lookup;
  }

  // ---------------------------------------------------------- the program

  datatype Token = Token(tok: Tok, pos: Pos, lit: string)

  /** Where token `k` starts when tokens are read one after the other. */
  function Starts(t: string, k: nat): nat {
    if k == 0 then 0 else ScanAt(t, Starts(t, k - 1)).next
  }

  function TokenAt(t: string, p: nat): Token {
    var s := ScanAt(t, p);
    Token(s.tok, PosAt(t, s.start), s.lit)
  }

  /** An unbounded cursor over the tokens, for all the ring remembers only three. */
  class BufScanner {
    const s: Scanner
    const ring: Ring<Token>

    constructor (input: string)
      ensures Valid() && fresh(s) && fresh(s.r) && fresh(s.r.Repr()) && fresh(ring) && fresh(ring.buf)
      ensures Text() == Normal(input) && Place() == 0 && Back() == 0
    {
      s := new Scanner(input);
      ring := new Ring();
    }

    ghost function Text(): string {
      s.r.Text()
    }

    ghost predicate Valid()
      reads this, s.r, s.r.ring, s.r.ring.buf, ring, ring.buf
    {
      && s.r.Valid() && ring.Valid()
      && {s.r, s.r.ring, s.r.ring.buf as object} !! {ring, ring.buf as object}
      && s.r.Cursor() == Starts(Text(), |ring.history|)
      && forall k | 0 <= k < |ring.history| :: ring.history[k] == TokenAt(Text(), Starts(Text(), k))
    }

    /** Where the next token starts. */
    ghost function Place(): nat
      requires Valid()
      reads this, s.r, s.r.ring, s.r.ring.buf, ring, ring.buf
    {
      Starts(Text(), ring.Taken())
    }

    ghost function Back(): (n: nat)
      requires Valid()
      reads this, s.r, s.r.ring, s.r.ring.buf, ring, ring.buf
      ensures n <= 2
    {
      ring.n
    }

    method Scan() returns (token: Token)
      requires Valid()
      modifies s.r, s.r.ring, s.r.ring.buf, ring, ring.buf
      ensures Valid() && token == TokenAt(Text(), old(Place())) && Place() == ScanAt(Text(), old(Place())).next
      ensures Back() == if old(Back()) > 0 then old(Back()) - 1 else 0
      ensures ring.Taken() == old(ring.Taken()) + 1
    {
      hide ScanAt, Reader.Valid, Reader.Cursor, PosAt;
      if ring.n > 0 {
        token := ring.Reread();
        return;
      }
      var tok, pos, lit := s.Scan();
      token := Token(tok, pos, lit);
      ring.Put(token);
    }

    /** The last token will be read again. */
    method Unscan()
      requires Valid() && Back() < 2 && ring.Taken() > 0
      modifies ring
      ensures Valid() && Back() == old(Back()) + 1 && old(Place()) == ScanAt(Text(), Place()).next
    {
      hide ScanAt, Reader.Valid, Reader.Cursor, PosAt;
      ring.Unread();
    }
  }

  class Parser {
    const s: BufScanner

    constructor (input: string)
      ensures Ready() && s.Text() == Normal(input) && s.Place() == 0
      ensures fresh(s) && fresh(s.s) && fresh(s.s.r) && fresh(s.s.r.Repr()) && fresh(s.ring) && fresh(s.ring.buf)
    {
      s := new BufScanner(input);
    }

    ghost predicate Ready()
      reads this, s, s.s.r, s.s.r.ring, s.s.r.ring.buf, s.ring, s.ring.buf
    {
      s.Valid()
    }

    method Next() returns (token: Token)
      requires Ready()
      modifies s.s.r, s.s.r.ring, s.s.r.ring.buf, s.ring, s.ring.buf
      ensures Ready() && s.Back() <= 1
      ensures token == TokenAt(s.Text(), old(s.Place())) && s.Place() == ScanAt(s.Text(), old(s.Place())).next
      ensures s.ring.Valid() && s.ring.Taken() > 0
    {
      hide ScanAt;
      token := s.Scan();
    }

    method ScanIgnoreWhitespace() returns (token: Token)
      requires Ready()
      modifies s.s.r, s.s.r.ring, s.s.r.ring.buf, s.ring, s.ring.buf
      ensures Ready()
      ensures var u := Solid(s.Text(), old(s.Place())); token == Token(u.tok, PosAt(s.Text(), u.start), u.lit) && s.Place() == u.next
    {
      hide ScanAt, PosAt, BufScanner.Valid, BufScanner.Place;
      token := s.Scan();
      if token.tok == Ws {
        token := s.Scan();
      }
    }

    method ParseNamespace() returns (r: Parsed<string>)
      requires Ready()
      modifies s.s.r, s.s.r.ring, s.s.r.ring.buf, s.ring, s.ring.buf
      ensures Ready()
      ensures r == NameAt(s.Text(), old(s.Place()))
    {
      hide ScanAt, PosAt, BufScanner.Valid, BufScanner.Place, Solid;
      ghost var t, p := s.Text(), s.Place();
      var token := ScanIgnoreWhitespace();
      if token.tok != Ident {
        return Err(ParseError(Shown(token.tok, token.lit), ["namespace"], token.pos));
      }
      var name, endPeriod := token.lit, false;
      while true
        invariant Ready() && NameAt(t, p) == NameFrom(t, s.Place(), name, endPeriod)
        decreases |t| - s.Place()
      {
        NameAdvances(t, s.Place());
        token := Next();
        if token.tok == Dot {
          name, endPeriod := name + ".", true;
        } else if token.tok == Ident {
          name, endPeriod := name + token.lit, false;
        } else {
          break;
        }
      }
      s.Unscan();
      if endPeriod {
        return Err(ParseError(Shown(token.tok, token.lit), ["identifier"], token.pos));
      }
      r := Ok(name);
    }

    method ParseStatement() returns (r: Parsed<Statement>)
      requires Ready() && s.Place() == 0
      modifies s.s.r, s.s.r.ring, s.s.r.ring.buf, s.ring, s.ring.buf
      ensures r == Parse(s.Text())
    {
      hide ScanAt, PosAt, BufScanner.Valid, BufScanner.Place, Solid, NameAt, Shown;
      var token := ScanIgnoreWhitespace();
      match token.tok
      case Keyword(word) =>
        if word == "use" {
          var name := ParseNamespace();
          r := match name case Ok(n) => Ok(Use(n)) case Err(e) => Err(e);
        } else if word == "create" || word == "drop" {
          token := ScanIgnoreWhitespace();
          if token.tok != Keyword("namespace") {
            return Err(ParseError(Shown(token.tok, token.lit), ["NAMESPACE"], token.pos));
          }
          var name := ParseNamespace();
          if word == "create" {
            r := match name case Ok(n) => Ok(CreateNamespace(n)) case Err(e) => Err(e);
          } else {
            r := match name case Ok(n) => Ok(DropNamespace(n)) case Err(e) => Err(e);
          }
        } else if word == "show" {
          token := ScanIgnoreWhitespace();
          if token.tok != Keyword("namespaces") {
            return Err(ParseError(Shown(token.tok, token.lit), ["NAMESPACES"], token.pos));
          }
          r := Ok(ShowNamespaces);
        } else {
          r := Err(ParseError(Shown(token.tok, token.lit), ["USE", "CREATE", "SHOW", "DROP"], token.pos));
        }
      case _ =>
        r := Err(ParseError(Shown(token.tok, token.lit), ["USE", "CREATE", "SHOW", "DROP"], token.pos));
    }
  }
}
