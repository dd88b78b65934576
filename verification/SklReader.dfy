/** Characters for the lexer: line ends unified, three of them remembered. */
module SklReader {

  /** The last three things read, so that up to two can be pushed back.  The reader keeps
      characters in such a ring, the parser's scanner keeps tokens in one. */
  class Ring<T(0)> {
    const buf: array<T>
    var i: nat
    var n: nat
    /** Everything that was ever put in. */
    ghost var history: seq<T>

    constructor ()
      ensures Valid() && fresh(buf) && history == [] && n == 0
    {
      buf := new T[3];
      i, n, history := 0, 0, [];
    }

    ghost predicate Valid()
      reads this, buf
    {
      && buf.Length == 3 && i < 3 && n <= 2 && n <= |history|
      && (|history| >= 1 ==> buf[i] == history[|history| - 1])
      && (|history| >= 2 ==> buf[(i + 2) % 3] == history[|history| - 2])
      && (|history| >= 3 ==> buf[(i + 1) % 3] == history[|history| - 3])
    }

    /** How many of the things read have not been pushed back. */
    ghost function Taken(): nat
      requires Valid()
      reads this, buf
    {
      |history| - n
    }

    /** The last thing read. */
    method Curr() returns (x: T)
      requires Valid() && Taken() > 0
      ensures x == history[Taken() - 1]
    {
      x := buf[(i - n + 3) % 3];
    }

    /** Read again what was pushed back. */
    method Reread() returns (x: T)
      requires Valid() && n > 0
      modifies this`n
      ensures Valid() && n == old(n) - 1 && x == history[Taken() - 1] == history[old(Taken())]
    {
      n := n - 1;
      x := Curr();
    }

    /** Remember something new. */
    method Put(x: T)
      requires Valid() && n == 0
      modifies this`i, this`history, buf
      ensures Valid() && history == old(history) + [x]
    {
      i := (i + 1) % 3;
      buf[i] := x;
      history := history + [x];
    }

    /** Push back the last thing read. */
    method Unread()
      requires Valid() && n < 2 && Taken() > 0
      modifies this`n
      ensures Valid() && n == old(n) + 1
    {
      n := n + 1;
    }
  }

  // ----------------------------------------------------------------- text

  /** End of the input; a NUL in the input looks the same. */
  const EOF: char := '\0'

  datatype Pos = Pos(line: nat, column: nat)

  /** Every line end is a line feed. */
  function Normal(input: string): string {
    if input == "" then ""
    else if input[0] != '\r' then [input[0]] + Normal(input[1..])
    else if |input| > 1 && input[1] == '\n' then "\n" + Normal(input[2..])
    else "\n" + Normal(input[1..])
  }

  /** Behind the end there is the end. */
  function At(t: string, k: nat): char {
    if k < |t| then t[k] else EOF
  }

  predicate EofBefore(t: string, k: nat) {
    exists j: nat :: j < k && At(t, j) == EOF
  }

  /** Line and column of a character; only the first end counts as a column. */
  function PosAt(t: string, k: nat): Pos {
    if k == 0 then Pos(0, 0)
    else
      var p := PosAt(t, k - 1);
      if At(t, k - 1) == '\n' then Pos(p.line + 1, 0)
      else if EofBefore(t, k - 1) then p
      else Pos(p.line, p.column + 1)
  }

  lemma EofMore(t: string, k: nat)
    ensures EofBefore(t, k + 1) <==> EofBefore(t, k) || At(t, k) == EOF
    ensures !EofBefore(t, 0)
  {
  }

  lemma Following(t: string, rest: string, k: nat)
    requires rest == if k <= |t| then t[k..] else ""
    ensures At(rest, 0) == At(t, k)
    ensures (if rest == "" then "" else rest[1..]) == if k + 1 <= |t| then t[k + 1..] else ""
  {
  }

  // --------------------------------------------------------------- reader

  datatype Char = Char(ch: char, pos: Pos)

  /** An unbounded cursor over the text, for all the ring remembers only three characters. */
  class Reader {
    const input: string
    var inputPos: nat
    const ring: Ring<Char>
    var pos: Pos
    var eof: bool

    constructor (input: string)
      ensures Valid() && fresh(Repr()) && this.input == input && Cursor() == 0 && Back() == 0
    {
      this.input := input;
      inputPos, pos, eof := 0, Pos(0, 0), false;
      ring := new Ring();
      new;
      assert input[0..] == input;
    }

    ghost function Repr(): set<object>
      reads this
    {
      {this, ring, ring.buf}
    }

    ghost predicate Valid()
      reads this, ring, ring.buf
    {
      && ring.Valid() && inputPos <= |input|
      && Fetched(ring.history, inputPos)
      && pos == PosAt(Text(), |ring.history|) && eof == EofBefore(Text(), |ring.history|)
    }

    /** What is in the ring's history is the beginning of the text, and what the input still
        holds is the rest of it. */
    ghost predicate Fetched(history: seq<Char>, at: nat) {
      && at <= |input|
      && (forall k | 0 <= k < |history| :: history[k] == Char(At(Text(), k), PosAt(Text(), k)))
      && Normal(input[at..]) == if |history| <= |Text()| then Text()[|history|..] else ""
    }

    ghost function Text(): string {
      Normal(input)
    }

    /** Place of the next character. */
    ghost function Cursor(): nat
      requires Valid()
      reads this, ring, ring.buf
    {
      ring.Taken()
    }

    /** Characters that have been pushed back. */
    ghost function Back(): (n: nat)
      requires Valid()
      reads this, ring, ring.buf
      ensures n <= 2
    {
      ring.n
    }

    method Read() returns (ch: char, at: Pos)
      requires Valid()
      modifies this, ring, ring.buf
      ensures Valid() && Cursor() == old(Cursor()) + 1 && Back() == if old(Back()) > 0 then old(Back()) - 1 else 0
      ensures ch == At(Text(), old(Cursor())) && at == PosAt(Text(), old(Cursor()))
    {
      hide PosAt, At, Normal, EofBefore;
      if ring.n > 0 {
        var c := ring.Reread();
        return c.ch, c.pos;
      }
      ch, at := ReadNew();
    }

    method ReadNew() returns (ch: char, at: Pos)
      requires Valid() && ring.n == 0
      modifies this, ring, ring.buf
      ensures Valid() && ring.n == 0 && |ring.history| == |old(ring.history)| + 1
      ensures ch == At(Text(), |old(ring.history)|) && at == PosAt(Text(), |old(ring.history)|)
    {
      hide EofBefore, Normal, PosAt, Fetched;
      ghost var k, from := |ring.history|, inputPos;
      ghost var history := ring.history;
      ch := Fetch();
      FetchedMore(history, from, inputPos, ch);
      at := pos;
      ring.Put(Char(ch, at));
      Advance(ch, k);
    }

    /** Where the next character will stand. */
    method Advance(ch: char, ghost k: nat)
      requires pos == PosAt(Text(), k) && eof == EofBefore(Text(), k) && ch == At(Text(), k)
      modifies this`pos, this`eof
      ensures pos == PosAt(Text(), k + 1) && eof == EofBefore(Text(), k + 1)
    {
      hide EofBefore, Normal;
      EofMore(Text(), k);
      if ch == '\n' {
        pos := Pos(pos.line + 1, 0);
      } else if !eof {
        pos := Pos(pos.line, pos.column + 1);
      }
      if ch == EOF {
        eof := true;
      }
    }

    lemma FetchedMore(history: seq<Char>, from: nat, to: nat, ch: char)
      requires Fetched(history, from) && to <= |input|
      requires var rest := Normal(input[from..]);
        ch == At(rest, 0) && Normal(input[to..]) == if rest == "" then "" else rest[1..]
      ensures ch == At(Text(), |history|) && Fetched(history + [Char(ch, PosAt(Text(), |history|))], to)
    {
      hide Normal, PosAt;
      Following(Text(), Normal(input[from..]), |history|);
    }

    /** The next character of the underlying input, line ends unified. */
    method Fetch() returns (ch: char)
      requires inputPos <= |input|
      modifies this`inputPos
      ensures inputPos <= |input|
      ensures var rest := Normal(old(input[inputPos..]));
        ch == At(rest, 0) && Normal(input[inputPos..]) == if rest == "" then "" else rest[1..]
    {
      if inputPos == |input| { return EOF; }
      ch := input[inputPos];
      assert input[inputPos..][1..] == input[inputPos + 1..];
      inputPos := inputPos + 1;
      if ch == '\r' {
        if inputPos < |input| && input[inputPos] == '\n' {
          assert input[inputPos - 1..][2..] == input[inputPos + 1..];
          inputPos := inputPos + 1;
        }
        ch := '\n';
      }
    }

    method Unread()
      requires Valid() && Back() < 2 && Cursor() > 0
      modifies ring
      ensures Valid() && Cursor() == old(Cursor()) - 1 && Back() == old(Back()) + 1
    {
      ring.Unread();
    }

    /** The last character read. */
    method Curr() returns (ch: char, at: Pos)
      requires Valid() && Cursor() > 0
      ensures ch == At(Text(), Cursor() - 1) && at == PosAt(Text(), Cursor() - 1)
    {
      var c := ring.Curr();
      return c.ch, c.pos;
    }
  }
}
