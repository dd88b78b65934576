/** Lines longer than the limit: when the wrapper makes one of several words. */
module WrapWordsLong {
  import opened WrapWords

  /** A line of several words that is too long. */
  predicate Straggles(p: Paragraph, i: nat, j: nat)
    requires i < j <= |p.words|
  {
    j > i + 1 && p.LineLength(i, j - 1) > p.lim
  }

  /** Only single words make a line too long; the last line is not looked at. */
  predicate Tidy(p: Paragraph, ends: seq<nat>, i: nat)
    requires p.IsBreaking(ends, i)
    decreases |ends|
  {
    |ends| > 1 ==> !Straggles(p, i, ends[0]) && Tidy(p, ends[1..], ends[0])
  }

  // -------------------------------------- the lines that are not too long

  /** The lines from `i` on that end before this are single words or fit. */
  function Reach(p: Paragraph, i: nat): (r: nat)
    requires i < |p.words|
    ensures i < r <= |p.words| && (i + 1 < |p.words| ==> i + 1 < r)
  {
    if i + 1 == |p.words| then |p.words| else ReachFrom(p, i, i + 2)
  }

  function ReachFrom(p: Paragraph, i: nat, k: nat): (r: nat)
    requires i + 1 < k <= |p.words|
    ensures k <= r <= |p.words|
    decreases |p.words| - k
  {
    if k == |p.words| || p.LineLength(i, k - 1) > p.lim then k else ReachFrom(p, i, k + 1)
  }

  lemma {:induction false} Longer(p: Paragraph, i: nat, j: nat, k: nat)
    requires i <= j <= k < |p.words| && p.spc >= 0
    ensures p.LineLength(i, j) <= p.LineLength(i, k)
  {
    if j < k {
      Longer(p, i, j, k - 1);
    }
  }

  lemma {:induction false} ReachFromSplits(p: Paragraph, i: nat, from: nat, k: nat)
    requires i + 1 < from <= |p.words| && from <= k < |p.words| && p.spc >= 0
    ensures Straggles(p, i, k) <==> k >= ReachFrom(p, i, from)
    decreases |p.words| - from
  {
    if p.LineLength(i, from - 1) > p.lim {
      Longer(p, i, from - 1, k - 1);
    } else if k > from {
      ReachFromSplits(p, i, from + 1, k);
    }
  }

  lemma ReachSplits(p: Paragraph, i: nat, k: nat)
    requires i < k < |p.words| && p.spc >= 0
    ensures Straggles(p, i, k) <==> k >= Reach(p, i)
  {
    if k > i + 1 {
      ReachFromSplits(p, i, i + 2, k);
    }
  }

  // ------------------------------------------------- when a line straggles

  /** Of equal costs the shorter first line is kept. */
  lemma {:induction false} FirstIsKept(p: Paragraph, i: nat, r: nat, j: nat)
    requires i < r <= j <= |p.words|
    ensures p.MinTo(i, j) <= p.MinTo(i, r)
    ensures p.MinTo(i, j) == p.MinTo(i, r) ==> p.ArgTo(i, j) == p.ArgTo(i, r)
    ensures p.MinTo(i, j) < p.MinTo(i, r) ==> p.ArgTo(i, j) >= r
    decreases j
  {
    if r < j {
      FirstIsKept(p, i, r, j - 1);
    }
  }

  /** A line that is not the last is made of several words and too long, if and only if every line
      from here that is not costs more, whatever follows it. */
  lemma BreakStraggles(p: Paragraph, i: nat)
    requires i < |p.words| && p.spc >= 0 && p.pen >= 0
    requires p.LineLength(i, |p.words| - 1) > p.lim && p.Opt(i) < MAX_COST
    ensures i < p.Break(i) < |p.words|
    ensures Straggles(p, i, p.Break(i)) <==> p.MinTo(i, Reach(p, i)) > p.Opt(i)
  {
    hide ReachFrom;
    var r := Reach(p, i);
    p.MinReached(i, |p.words|);
    p.MinReached(i, r);
    FirstIsKept(p, i, r, |p.words|);
    ReachSplits(p, i, p.Break(i));
  }

  /** On the way through the breaks some line is forced to be long. */
  predicate Forced(p: Paragraph, i: nat)
    requires i < |p.words| && p.pen >= 0 && p.Opt(i) < MAX_COST
    decreases |p.words| - i
  {
    p.NextChosen(i);
    p.LineLength(i, |p.words| - 1) > p.lim
    && (p.MinTo(i, Reach(p, i)) > p.Opt(i) || (p.Break(i) < |p.words| && Forced(p, p.Break(i))))
  }

  /** The breaking that is found has an over-long line of several words if and only if one is forced. */
  lemma {:induction false} ChosenTidyExactly(p: Paragraph, i: nat)
    requires i < |p.words| && p.spc >= 0 && p.pen >= 0 && p.Opt(i) < MAX_COST
    ensures Tidy(p, p.Chosen(i), i) <==> !Forced(p, i)
    decreases |p.words| - i
  {
    hide Reach, Straggles;
    p.NextChosen(i);
    if p.LineLength(i, |p.words| - 1) > p.lim {
      BreakStraggles(p, i);
      ChosenTidyExactly(p, p.Break(i));
    }
  }

  // ------------------------------------------------ the best tidy breaking

  /** Least cost of a tidy breaking of the words from `i` on, at most the sentinel. */
  function TidyOpt(p: Paragraph, i: nat): int
    requires i < |p.words|
    decreases |p.words| - i, |p.words| + 1
  {
    if p.LineLength(i, |p.words| - 1) <= p.lim then 0 else TidyMinTo(p, i, Reach(p, i))
  }

  function TidyMinTo(p: Paragraph, i: nat, j: nat): int
    requires i < j <= |p.words|
    decreases |p.words| - i, j
  {
    if j == i + 1 then MAX_COST
    else
      var c := p.LineCost(i, j - 1) + TidyOpt(p, j - 1);
      if c < TidyMinTo(p, i, j - 1) then c else TidyMinTo(p, i, j - 1)
  }

  lemma {:induction false} TidyMinBelow(p: Paragraph, i: nat, j: nat, k: nat)
    requires i < k < j <= |p.words|
    ensures TidyMinTo(p, i, j) <= p.LineCost(i, k) + TidyOpt(p, k)
    decreases j
  {
    if k < j - 1 {
      TidyMinBelow(p, i, j - 1, k);
    }
  }

  lemma {:induction false} TidyMinCapped(p: Paragraph, i: nat, j: nat)
    requires i < j <= |p.words|
    ensures TidyMinTo(p, i, j) <= MAX_COST
    decreases j
  {
    if j > i + 1 {
      TidyMinCapped(p, i, j - 1);
    }
  }

  /** No tidy breaking whose last line fits is cheaper. */
  lemma {:induction false} TidyOptIsLower(p: Paragraph, ends: seq<nat>, i: nat)
    requires p.IsBreaking(ends, i) && p.LastFits(ends, i) && Tidy(p, ends, i) && p.pen >= 0 && p.spc >= 0
    ensures i < |p.words| && TidyOpt(p, i) <= p.Raggedness(ends, i)
    decreases |ends|
  {
    hide Reach, Straggles;
    if |ends| > 1 {
      TidyOptIsLower(p, ends[1..], ends[0]);
      p.RaggedPositive(ends, i);
      ReachSplits(p, i, ends[0]);
      TidyMinBelow(p, i, Reach(p, i), ends[0]);
    }
  }

  /** The end of the first line where the least tidy cost is reached. */
  lemma {:induction false} TidyMinReached(p: Paragraph, i: nat, j: nat) returns (k: nat)
    requires i < j <= |p.words| && TidyMinTo(p, i, j) < MAX_COST
    ensures i < k < j && TidyMinTo(p, i, j) == p.LineCost(i, k) + TidyOpt(p, k)
    decreases j
  {
    if p.LineCost(i, j - 1) + TidyOpt(p, j - 1) < TidyMinTo(p, i, j - 1) {
      k := j - 1;
    } else {
      k := TidyMinReached(p, i, j - 1);
    }
  }

  lemma {:induction false} TidyOptReached(p: Paragraph, i: nat) returns (ends: seq<nat>)
    requires i < |p.words| && p.pen >= 0 && p.spc >= 0 && TidyOpt(p, i) < MAX_COST
    ensures p.IsBreaking(ends, i) && p.LastFits(ends, i) && Tidy(p, ends, i) && p.Raggedness(ends, i) == TidyOpt(p, i)
    decreases |p.words| - i
  {
    hide Reach, Straggles;
    if p.LineLength(i, |p.words| - 1) <= p.lim {
      ends := [|p.words|];
    } else {
      var k := TidyMinReached(p, i, Reach(p, i));
      p.SquarePositive(p.lim - p.LineLength(i, k - 1));
      assert p.LineCost(i, k) >= 0;
      var rest := TidyOptReached(p, k);
      ends := [k] + rest;
      assert ends[1..] == rest;
      ReachSplits(p, i, k);
    }
  }

  ghost predicate IsLeast(p: Paragraph, ends: seq<nat>) {
    |p.words| > 0 && p.IsBreaking(ends, 0) && p.LastFits(ends, 0) && p.Raggedness(ends, 0) == p.Opt(0)
  }

  /** Every breaking of least cost has an over-long line of several words, if and only if doing
      without such lines costs more. */
  lemma AllStraggle(p: Paragraph)
    requires p.words != [] && p.pen >= 0 && p.spc >= 0 && p.Opt(0) < MAX_COST
    ensures p.Opt(0) <= TidyOpt(p, 0)
    ensures (forall ends | IsLeast(p, ends) :: !Tidy(p, ends, 0)) <==> p.Opt(0) < TidyOpt(p, 0)
  {
    hide Reach, Straggles, Tidy;
    if TidyOpt(p, 0) < MAX_COST {
      var ends := TidyOptReached(p, 0);
      p.OptIsLower(ends, 0);
      assert p.Opt(0) == TidyOpt(p, 0) ==> IsLeast(p, ends);
    } else {
      TidyCapped(p);
    }
    forall ends | IsLeast(p, ends) && Tidy(p, ends, 0)
      ensures TidyOpt(p, 0) <= p.Opt(0)
    {
      TidyOptIsLower(p, ends, 0);
    }
  }

  lemma TidyCapped(p: Paragraph)
    requires p.words != []
    ensures TidyOpt(p, 0) <= MAX_COST
  {
    TidyMinCapped(p, 0, Reach(p, 0));
  }

  // ------------------------------------------------ known before the call

  /** Every word on a line of its own, from `i` on. */
  function Singles(p: Paragraph, i: nat): (ends: seq<nat>)
    requires i < |p.words|
    ensures p.IsBreaking(ends, i) && ends[0] == i + 1
    decreases |p.words| - i
  {
    if i + 1 == |p.words| then [i + 1]
    else
      var rest := Singles(p, i + 1);
      var ends := [i + 1] + rest;
      assert ends[1..] == rest;
      ends
  }

  lemma SquareBelow(a: int, b: int)
    requires 0 <= a <= b
    ensures a * a <= b * b
  {
  }

  lemma {:induction false} SinglesCost(p: Paragraph, i: nat)
    requires i < |p.words| && forall w | w in p.words :: |w| <= p.lim
    ensures p.LastFits(Singles(p, i), i)
    ensures p.Raggedness(Singles(p, i), i) <= (|p.words| - 1 - i) * (p.lim * p.lim)
    decreases |p.words| - i
  {
    var ends := Singles(p, i);
    assert p.words[i] in p.words;
    if i + 1 < |p.words| {
      SinglesCost(p, i + 1);
      assert ends[1..] == Singles(p, i + 1);
      SquareBelow(p.lim - |p.words[i]|, p.lim);
      OneMore(|p.words| - 1 - i, p.lim * p.lim);
    }
  }

  lemma OneMore(n: int, a: int)
    ensures n * a == (n - 1) * a + a
  {
  }

  /** A breaking with an over-long line costs at least the penalty. */
  lemma {:induction false} PenaltyPaid(p: Paragraph, ends: seq<nat>, i: nat)
    requires p.IsBreaking(ends, i) && p.pen >= 0 && !Tidy(p, ends, i)
    ensures p.Raggedness(ends, i) >= p.pen
    decreases |ends|
  {
    p.SquarePositive(p.lim - p.LineLength(i, ends[0] - 1));
    if Straggles(p, i, ends[0]) {
      p.RaggedPositive(ends[1..], ends[0]);
    } else {
      PenaltyPaid(p, ends[1..], ends[0]);
    }
  }

  /** What the comment in the code says holds where every word fits and the penalty is more than
      all the slack there can be. */
  lemma LargePenalty(p: Paragraph)
    requires p.words != [] && forall w | w in p.words :: |w| <= p.lim
    requires p.pen > (|p.words| - 1) * (p.lim * p.lim) && p.Opt(0) < MAX_COST && p.pen >= 0
    ensures Tidy(p, p.Chosen(0), 0)
  {
    hide Tidy;
    SinglesCost(p, 0);
    p.OptIsLower(Singles(p, 0), 0);
    if !Tidy(p, p.Chosen(0), 0) {
      PenaltyPaid(p, p.Chosen(0), 0);
    }
  }

  /** And then there are lines at all, if that slack stays below the sentinel. */
  lemma LargePenaltyIsFeasible(p: Paragraph)
    requires p.words != [] && p.pen >= 0 && forall w | w in p.words :: |w| <= p.lim
    requires (|p.words| - 1) * (p.lim * p.lim) < MAX_COST
    ensures p.Feasible() && p.Opt(0) < MAX_COST
  {
    SinglesCost(p, 0);
    p.OptIsLower(Singles(p, 0), 0);
  }
}
