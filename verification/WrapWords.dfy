/** Breaking a paragraph into lines of least raggedness by dynamic programming. */
module WrapWords {
  type Word = seq<int>

  /** "No way to break the rest found." */
  const MAX_COST: int := 0x7FFF_FFFF

  datatype Paragraph = Paragraph(words: seq<Word>, spc: int, lim: int, pen: int) {
    /** Length of the line that holds words `i` to `j`. */
    function LineLength(i: nat, j: nat): int
      requires i <= j < |words|
    {
      if j == i then |words[i]| else LineLength(i, j - 1) + spc + |words[j]|
    }

    /** Error of the line that holds words `i` to `j - 1`, when it is not the last one. */
    function LineCost(i: nat, j: nat): int
      requires i < j <= |words|
    {
      var d := lim - LineLength(i, j - 1);
      d * d + if LineLength(i, j - 1) > lim then pen else 0
    }

    // ------------------------------------------------- what is to be found

    /** `ends` cuts the words from `i` on into lines that are not empty. */
    predicate IsBreaking(ends: seq<nat>, i: nat) {
      && ends != [] && i < ends[0] <= |words|
      && (if |ends| == 1 then ends[0] == |words| else IsBreaking(ends[1..], ends[0]))
    }

    /** The last line is free, but it must fit. */
    predicate LastFits(ends: seq<nat>, i: nat)
      requires IsBreaking(ends, i)
    {
      if |ends| == 1 then LineLength(i, |words| - 1) <= lim else LastFits(ends[1..], ends[0])
    }

    function Raggedness(ends: seq<nat>, i: nat): int
      requires IsBreaking(ends, i)
    {
      if |ends| == 1 then 0 else LineCost(i, ends[0]) + Raggedness(ends[1..], ends[0])
    }

    /** Some breaking whose last line fits costs less than the sentinel. */
    ghost predicate Feasible() {
      exists ends :: IsBreaking(ends, 0) && LastFits(ends, 0) && Raggedness(ends, 0) < MAX_COST
    }

    function Cut(ends: seq<nat>, i: nat): seq<seq<Word>>
      requires IsBreaking(ends, i)
    {
      [words[i..ends[0]]] + if |ends| == 1 then [] else Cut(ends[1..], ends[0])
    }

    // -------------------------------------------------- the recurrence

    /** Least cost of the words from `i` on, but at most the sentinel. */
    function Opt(i: nat): int
      requires i < |words|
      decreases |words| - i, |words| + 1
    {
      if LineLength(i, |words| - 1) <= lim then 0 else MinTo(i, |words|)
    }

    /** Least cost of the words from `i` on when the first line ends before `j`. */
    function MinTo(i: nat, j: nat): int
      requires i < j <= |words|
      decreases |words| - i, j
    {
      if j == i + 1 then MAX_COST
      else
        var c := LineCost(i, j - 1) + Opt(j - 1);
        if c < MinTo(i, j - 1) then c else MinTo(i, j - 1)
    }

    /** The first end of line where that cost is reached; 0 if there is none. */
    function ArgTo(i: nat, j: nat): nat
      requires i < j <= |words|
    {
      if j == i + 1 then 0
      else if LineCost(i, j - 1) + Opt(j - 1) < MinTo(i, j - 1) then j - 1
      else ArgTo(i, j - 1)
    }

    function Break(i: nat): nat
      requires i < |words|
    {
      if LineLength(i, |words| - 1) <= lim then |words| else ArgTo(i, |words|)
    }

    // ------------------------------------------- the recurrence is right

    lemma {:induction false} MinBelow(i: nat, j: nat, k: nat)
      requires i < k < j <= |words|
      ensures MinTo(i, j) <= LineCost(i, k) + Opt(k) && MinTo(i, j) <= MAX_COST
    {
      if k < j - 1 {
        MinBelow(i, j - 1, k);
      } else {
        MinCapped(i, j - 1);
      }
    }

    lemma {:induction false} MinCapped(i: nat, j: nat)
      requires i < j <= |words|
      ensures MinTo(i, j) <= MAX_COST
    {
      if j > i + 1 {
        MinCapped(i, j - 1);
      }
    }

    lemma {:induction false} MinReached(i: nat, j: nat)
      requires i < j <= |words|
      ensures if MinTo(i, j) < MAX_COST
              then i < ArgTo(i, j) < j && MinTo(i, j) == LineCost(i, ArgTo(i, j)) + Opt(ArgTo(i, j))
              else ArgTo(i, j) == 0
    {
      MinCapped(i, j);
      if j > i + 1 {
        MinReached(i, j - 1);
        MinCapped(i, j - 1);
      }
    }

    /** No breaking whose last line fits is cheaper. */
    lemma {:induction false} OptIsLower(ends: seq<nat>, i: nat)
      requires IsBreaking(ends, i) && LastFits(ends, i) && pen >= 0
      ensures i < |words| && Opt(i) <= Raggedness(ends, i)
      decreases |ends|
    {
      if |ends| > 1 {
        OptIsLower(ends[1..], ends[0]);
        RaggedPositive(ends, i);
        MinBelow(i, |words|, ends[0]);
      }
    }

    lemma {:induction false} RaggedPositive(ends: seq<nat>, i: nat)
      requires IsBreaking(ends, i) && pen >= 0
      ensures Raggedness(ends, i) >= 0
      decreases |ends|
    {
      if |ends| > 1 {
        SquarePositive(lim - LineLength(i, ends[0] - 1));
        RaggedPositive(ends[1..], ends[0]);
      }
    }

    lemma SquarePositive(d: int)
      ensures d * d >= 0
    {
      if d < 0 {
        assert d * d == (-d) * (-d);
      }
    }

    lemma OptPositive(i: nat)
      requires i < |words| && pen >= 0
      ensures 0 <= Opt(i) <= MAX_COST
      decreases |words| - i
    {
      if LineLength(i, |words| - 1) > lim {
        MinCapped(i, |words|);
        MinReached(i, |words|);
        if MinTo(i, |words|) < MAX_COST {
          var k := ArgTo(i, |words|);
          OptPositive(k);
          SquarePositive(lim - LineLength(i, k - 1));
        }
      }
    }

    /** Following the breaks from `i` on. */
    function Chosen(i: nat): (ends: seq<nat>)
      requires i < |words| && pen >= 0 && Opt(i) < MAX_COST
      ensures ends != [] && ends[0] == Break(i) > i
      ensures IsBreaking(ends, i) && LastFits(ends, i) && Raggedness(ends, i) == Opt(i)
      decreases |words| - i
    {
      if LineLength(i, |words| - 1) <= lim then [|words|]
      else
        MinReached(i, |words|);
        SquarePositive(lim - LineLength(i, Break(i) - 1));
        assert LineCost(i, Break(i)) >= 0;
        var rest := Chosen(Break(i));
        var ends := [Break(i)] + rest;
        assert ends[1..] == rest;
        ends
    }

    lemma NextChosen(i: nat)
      requires i < |words| && pen >= 0 && Opt(i) < MAX_COST
      ensures var ends := Chosen(i);
              if |ends| == 1 then ends[0] == |words| else ends[0] < |words| && Opt(ends[0]) < MAX_COST && ends[1..] == Chosen(ends[0])
    {
      MinReached(i, |words|);
      if LineLength(i, |words| - 1) > lim {
        SquarePositive(lim - LineLength(i, Break(i) - 1));
      }
    }

    /** First word of the next line after `rounds` rounds of the loop that collects the lines. */
    function Position(rounds: nat): nat {
      if rounds == 0 then 0
      else
        var i := Position(rounds - 1);
        if i < |words| then Break(i) else i
    }

    /** The loop ends exactly when there is something to find; otherwise it adds empty lines for ever. */
    lemma EndsExactly()
      requires pen >= 0 && words != []
      ensures Feasible() ==> exists rounds :: Position(rounds) == |words|
      ensures !Feasible() ==> forall rounds :: Position(rounds) == 0
    {
      FeasibleExactly();
      if Feasible() {
        Arrives(0, 0);
      } else {
        forall rounds ensures Position(rounds) == 0 {
          Stuck(rounds);
        }
      }
    }

    lemma {:induction false} Stuck(rounds: nat)
      requires words != [] && Break(0) == 0
      ensures Position(rounds) == 0
    {
      if rounds > 0 {
        Stuck(rounds - 1);
      }
    }

    lemma {:induction false} Arrives(rounds: nat, i: nat)
      requires pen >= 0 && i == Position(rounds) < |words| && Opt(i) < MAX_COST
      ensures exists k :: Position(k) == |words|
      decreases |words| - i
    {
      NextChosen(i);
      assert Position(rounds + 1) == Break(i);
      if Break(i) < |words| {
        Arrives(rounds + 1, Break(i));
      }
    }

    /** The sentinel stands for: every breaking whose last line fits costs that much. */
    lemma FeasibleExactly()
      requires pen >= 0 && words != []
      ensures Feasible() <==> Opt(0) < MAX_COST
      ensures Feasible() <==> Break(0) > 0
    {
      if Opt(0) < MAX_COST {
        var ends := Chosen(0);
      } else {
        OptPositive(0);
        MinReached(0, |words|);
      }
      if Feasible() {
        var ends :| IsBreaking(ends, 0) && LastFits(ends, 0) && Raggedness(ends, 0) < MAX_COST;
        OptIsLower(ends, 0);
      }
    }

    /** If the last word alone is too long, nothing is feasible. */
    lemma {:induction false} LastWordFits(ends: seq<nat>, i: nat)
      requires IsBreaking(ends, i) && LastFits(ends, i) && spc >= 0
      ensures |words[|words| - 1]| <= lim
      decreases |ends|
    {
      if |ends| == 1 {
        LastWordInLine(i, |words| - 1);
      } else {
        LastWordFits(ends[1..], ends[0]);
      }
    }

    lemma {:induction false} LastWordInLine(i: nat, j: nat)
      requires i <= j < |words| && spc >= 0
      ensures 0 <= LineLength(i, j) && |words[j]| <= LineLength(i, j)
    {
      if i < j {
        LastWordInLine(i, j - 1);
      }
    }

    // ---------------------------------------------------- what lines hold

    lemma CutNext(ends: seq<nat>, i: nat, lines: seq<seq<Word>>)
      requires IsBreaking(ends, i)
      ensures lines + Cut(ends, i) == lines + [words[i..ends[0]]] + if |ends| == 1 then [] else Cut(ends[1..], ends[0])
    {
    }

    function Joined(lines: seq<seq<Word>>): seq<Word> {
      if lines == [] then [] else lines[0] + Joined(lines[1..])
    }

    lemma JoinedFirst(first: seq<Word>, rest: seq<seq<Word>>)
      ensures Joined([first] + rest) == first + Joined(rest)
    {
      assert ([first] + rest)[1..] == rest;
    }

    lemma FirstAndRest(first: seq<Word>, rest: seq<seq<Word>>)
      requires first != [] && forall k | 0 <= k < |rest| :: rest[k] != []
      ensures forall k | 0 <= k < |[first] + rest| :: ([first] + rest)[k] != []
    {
    }

    lemma {:induction false} CutJoins(ends: seq<nat>, i: nat)
      requires IsBreaking(ends, i)
      ensures Joined(Cut(ends, i)) == words[i..]
      ensures |Cut(ends, i)| == |ends| && forall k | 0 <= k < |ends| :: Cut(ends, i)[k] != []
      decreases |ends|
    {
      var first := words[i..ends[0]];
      if |ends| > 1 {
        var rest := Cut(ends[1..], ends[0]);
        CutJoins(ends[1..], ends[0]);
        JoinedFirst(first, rest);
        assert words[i..] == first + words[ends[0]..];
        FirstAndRest(first, rest);
      } else {
        JoinedFirst(first, []);
        assert words[i..] == first;
      }
    }
  }

  /** The comment in the code says that lines longer than the limit only happen when a single
      word is longer.  Not so, even with the default penalty: a short word may be put on the
      line of a long one because leaving it alone costs more. */
  lemma LongLineOfShortWords(p: Paragraph)
    requires |p.words| == 3 && |p.words[0]| == 2 && |p.words[1]| == 400 && |p.words[2]| == 1
    requires p.spc == 1 && p.lim == 401 && p.pen == 100000
    ensures p.Feasible() && p.Opt(0) < MAX_COST && p.Chosen(0) == [2, 3]
    ensures p.LineLength(0, 1) > p.lim && forall w | w in p.words :: |w| <= p.lim
  {
    assert p.LineLength(0, 1) == 403 && p.LineLength(1, 2) == 402 && p.LineLength(0, 2) == 405;
    assert p.Opt(2) == 0;
    assert p.MinTo(1, 2) == MAX_COST;
    assert p.Opt(1) == 1;
    assert p.LineCost(0, 1) == 159201 && p.LineCost(0, 2) == 100004;
    assert p.MinTo(0, 1) == MAX_COST;
    assert p.MinTo(0, 2) == 159202;
    assert p.Opt(0) == 100004 && p.Break(0) == 2 && p.Break(2) == 3;
    p.FeasibleExactly();
    assert p.Chosen(2) == [3];
  }

  // -------------------------------------------------------------- the program

  /** Lengths of all lines. */
  method Lengths(p: Paragraph) returns (length: array2<int>)
    ensures fresh(length) && length.Length0 == length.Length1 == |p.words|
    ensures forall i, j | 0 <= i <= j < |p.words| :: length[i, j] == p.LineLength(i, j)
  {
    var n := |p.words|;
    length := new int[n, n];
    for i := 0 to n
      invariant forall a, b | 0 <= a < i && a <= b < n :: length[a, b] == p.LineLength(a, b)
    {
      length[i, i] := |p.words[i]|;
      for j := i + 1 to n
        invariant forall a, b | 0 <= a < i && a <= b < n :: length[a, b] == p.LineLength(a, b)
        invariant forall b | i <= b < j :: length[i, b] == p.LineLength(i, b)
      {
        length[i, j] := length[i, j - 1] + p.spc + |p.words[j]|;
      }
    }
  }

  /** Costs and breaks, from the last word to the first. */
  method Breaks(p: Paragraph) returns (cost: array<int>, nbrk: array<nat>)
    ensures cost.Length == nbrk.Length == |p.words|
    ensures forall i | 0 <= i < |p.words| :: cost[i] == p.Opt(i) && nbrk[i] == p.Break(i)
  {
    var n := |p.words|;
    var length := Lengths(p);
    nbrk := new nat[n](_ => 0);
    cost := new int[n](_ => MAX_COST);
    var i := n - 1;
    while i >= 0
      invariant -1 <= i < n
      invariant forall a, b | 0 <= a <= b < n :: length[a, b] == p.LineLength(a, b)
      invariant forall k | i < k < n :: cost[k] == p.Opt(k) && nbrk[k] == p.Break(k)
      invariant forall k | 0 <= k <= i :: cost[k] == MAX_COST && nbrk[k] == 0
    {
      FillRow(p, length, cost, nbrk, i);
      i := i - 1;
    }
  }

  /** Cost and break of the words from `i` on. */
  method FillRow(p: Paragraph, length: array2<int>, cost: array<int>, nbrk: array<nat>, i: nat)
    requires cost.Length == nbrk.Length == length.Length0 == length.Length1 == |p.words| && i < |p.words|
    requires forall b | i <= b < |p.words| :: length[i, b] == p.LineLength(i, b)
    requires forall k | i < k < |p.words| :: cost[k] == p.Opt(k)
    requires cost[i] == MAX_COST && nbrk[i] == 0
    modifies cost, nbrk
    ensures cost[i] == p.Opt(i) && nbrk[i] == p.Break(i)
    ensures forall k | 0 <= k < |p.words| && k != i :: cost[k] == old(cost[k]) && nbrk[k] == old(nbrk[k])
  {
    var n := |p.words|;
    if length[i, n - 1] <= p.lim {
      cost[i], nbrk[i] := 0, n;
    } else {
      for j := i + 1 to n
        invariant forall k | 0 <= k < n && k != i :: cost[k] == old(cost[k]) && nbrk[k] == old(nbrk[k])
        invariant cost[i] == p.MinTo(i, j) && nbrk[i] == p.ArgTo(i, j)
      {
        var d := p.lim - length[i, j - 1];
        var c := d * d + cost[j];
        if length[i, j - 1] > p.lim {
          c := c + p.pen;
        }
        if c < cost[i] {
          cost[i], nbrk[i] := c, j;
        }
      }
    }
  }

  /** The lines have the least raggedness among all breakings whose last line fits.  Without
      such a breaking below the sentinel the last loop does not end: see `Stuck`. */
  method Wrap(p: Paragraph) returns (lines: seq<seq<Word>>, ghost ends: seq<nat>)
    requires p.pen >= 0 && (p.words != [] ==> p.Feasible())
    ensures p.Joined(lines) == p.words && forall k | 0 <= k < |lines| :: lines[k] != []
    ensures p.words != [] ==> p.IsBreaking(ends, 0) && p.LastFits(ends, 0) && lines == p.Cut(ends, 0)
    ensures p.words != [] ==> p.Opt(0) < MAX_COST && ends == p.Chosen(0)
    ensures p.words != [] ==> forall other | p.IsBreaking(other, 0) && p.LastFits(other, 0) ::
              p.Raggedness(ends, 0) <= p.Raggedness(other, 0)
  {
    var cost, nbrk := Breaks(p);
    ends := [];
    if p.words != [] {
      p.FeasibleExactly();
      ends := p.Chosen(0);
      p.CutJoins(ends, 0);
      forall other | p.IsBreaking(other, 0) && p.LastFits(other, 0) ensures p.Raggedness(ends, 0) <= p.Raggedness(other, 0) {
        p.OptIsLower(other, 0);
      }
      assert p.words[0..] == p.words;
    }
    lines := Collect(p, nbrk);
  }

  /** Follow the breaks. */
  method Collect(p: Paragraph, nbrk: array<nat>) returns (lines: seq<seq<Word>>)
    requires p.pen >= 0 && (p.words != [] ==> p.Opt(0) < MAX_COST)
    requires nbrk.Length == |p.words| && forall i | 0 <= i < |p.words| :: nbrk[i] == p.Break(i)
    ensures lines == if p.words == [] then [] else p.Cut(p.Chosen(0), 0)
  {
    var n := |p.words|;
    lines := [];
    var i := 0;
    while i < n
      invariant 0 <= i <= n
      invariant i < n ==> p.Opt(i) < MAX_COST && lines + p.Cut(p.Chosen(i), i) == p.Cut(p.Chosen(0), 0)
      invariant i == n && n > 0 ==> lines == p.Cut(p.Chosen(0), 0)
      invariant n == 0 ==> lines == []
      decreases n - i
    {
      p.NextChosen(i);
      p.CutNext(p.Chosen(i), i, lines);
      lines := lines + [p.words[i..nbrk[i]]];
      i := nbrk[i];
    }
  }
}
