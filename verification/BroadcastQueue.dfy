/** The queue of broadcasts that are gossiped a limited number of times. */
module BroadcastQueue {
  import opened Bytes

  /** `id` tells apart broadcasts with the same contents. */
  datatype Broadcast = Broadcast(id: nat, node: string, message: seq<byte>)

  datatype Entry = Entry(transmits: nat, b: Broadcast)

  // ------------------------------------------------------- specification

  /** Entries about other nodes. */
  function Without(q: seq<Entry>, node: string): seq<Entry> {
    if q == [] then []
    else if q[0].b.node == node then Without(q[1..], node)
    else [q[0]] + Without(q[1..], node)
  }

  function About(q: seq<Entry>, node: string): seq<Entry> {
    if q == [] then []
    else if q[0].b.node == node then [q[0]] + About(q[1..], node)
    else About(q[1..], node)
  }

  ghost predicate OnePerNode(q: seq<Entry>) {
    forall i, j | 0 <= i < j < |q| :: q[i].b.node != q[j].b.node
  }

  ghost predicate Descending(q: seq<Entry>) {
    forall i, j | 0 <= i <= j < |q| :: q[i].transmits >= q[j].transmits
  }

  /** One round of sending: what is sent, what stays, what leaves. */
  datatype Round = Round(sent: seq<Broadcast>, kept: seq<Entry>, gone: seq<Entry>)

  /** From the back of the queue, everything that still fits is sent. */
  function Transmit(q: seq<Entry>, overhead: nat, limit: int, most: int, used: int): Round {
    if q == [] then Round([], [], [])
    else
      var last := q[|q| - 1];
      var front := q[..|q| - 1];
      var size := overhead + |last.b.message|;
      if used + size > limit then
        var r := Transmit(front, overhead, limit, most, used);
        Round(r.sent, [last] + r.kept, r.gone)
      else
        var r := Transmit(front, overhead, limit, most, used + size);
        var e := Entry(last.transmits + 1, last.b);
        if e.transmits >= most then Round([last.b] + r.sent, r.kept, [e] + r.gone)
        else Round([last.b] + r.sent, [e] + r.kept, r.gone)
  }

  function Join(a: Round, b: Round): Round {
    Round(a.sent + b.sent, a.kept + b.kept, a.gone + b.gone)
  }

  function Messages(bs: seq<Broadcast>): (r: seq<seq<byte>>)
    ensures |r| == |bs|
  {
    seq(|bs|, i requires 0 <= i < |bs| => bs[i].message)
  }

  /** Bytes that messages take with an overhead each. */
  function Size(ms: seq<seq<byte>>, overhead: nat): nat {
    if ms == [] then 0 else overhead + |ms[0]| + Size(ms[1..], overhead)
  }

  function Max(a: int, b: int): int {
    if a >= b then a else b
  }

  /** The broadcast about a node that was queued last. */
  function Latest(log: seq<Broadcast>, node: string): seq<Broadcast> {
    if log == [] then []
    else if log[|log| - 1].node == node then [log[|log| - 1]]
    else Latest(log[..|log| - 1], node)
  }

  // ------------------------------------------------------- accounting

  /** Broadcasts of a queue, each as often as `weigh` says. */
  ghost function Gather<T>(q: seq<Entry>, weigh: Entry -> multiset<T>): multiset<T> {
    if q == [] then multiset{} else weigh(q[0]) + Gather(q[1..], weigh)
  }

  function Once(e: Entry): multiset<Broadcast> {
    multiset{e.b}
  }

  function PerTransmit(e: Entry): multiset<Broadcast> {
    multiset{}[e.b := e.transmits]
  }

  lemma {:induction false} GatherAppend<T>(p: seq<Entry>, q: seq<Entry>, weigh: Entry -> multiset<T>)
    ensures Gather(p + q, weigh) == Gather(p, weigh) + Gather(q, weigh)
  {
    if p == [] {
      assert p + q == q;
    } else {
      assert (p + q)[1..] == p[1..] + q;
      GatherAppend(p[1..], q, weigh);
    }
  }

  /** The order of the entries does not matter. */
  lemma {:induction false} GatherPermuted<T>(p: seq<Entry>, q: seq<Entry>, weigh: Entry -> multiset<T>)
    requires multiset(p) == multiset(q)
    ensures Gather(p, weigh) == Gather(q, weigh)
    decreases |p|, 1
  {
    if p == [] {
      assert |multiset(p)| == 0 && |multiset(q)| == |q|;
    } else {
      GatherMatched(p, q, weigh);
    }
  }

  lemma {:induction false} GatherMatched<T>(p: seq<Entry>, q: seq<Entry>, weigh: Entry -> multiset<T>)
    requires multiset(p) == multiset(q) && p != []
    ensures Gather(p, weigh) == Gather(q, weigh)
    decreases |p|, 0
  {
    hide Gather;
    assert p[0] in multiset(q);
    var i :| 0 <= i < |q| && q[i] == p[0];
    var p', q' := p[..0] + p[1..], q[..i] + q[i + 1..];
    Pull(p, 0);
    Pull(q, i);
    Cancel(multiset(p'), multiset(q'), multiset{p[0]});
    GatherPulled(p, 0, weigh);
    GatherPulled(q, i, weigh);
    GatherPermuted(p', q', weigh);
  }

  lemma Cancel<T>(a: multiset<T>, b: multiset<T>, c: multiset<T>)
    requires a + c == b + c
    ensures a == b
  {
    assert (a + c) - c == a && (b + c) - c == b;
  }

  lemma Pull<T>(q: seq<T>, i: nat)
    requires i < |q|
    ensures multiset(q) == multiset(q[..i] + q[i + 1..]) + multiset{q[i]}
  {
    assert q == q[..i] + [q[i]] + q[i + 1..];
  }

  lemma GatherPulled<T>(q: seq<Entry>, i: nat, weigh: Entry -> multiset<T>)
    requires i < |q|
    ensures Gather(q, weigh) == Gather(q[..i] + q[i + 1..], weigh) + weigh(q[i])
  {
    assert Gather([q[i]], weigh) == weigh(q[i]) by { assert [q[i]][1..] == []; }
    hide Gather;
    assert q == q[..i] + [q[i]] + q[i + 1..];
    GatherAppend(q[..i] + [q[i]], q[i + 1..], weigh);
    GatherAppend(q[..i], [q[i]], weigh);
    GatherAppend(q[..i], q[i + 1..], weigh);
  }

  lemma {:induction false} WithoutAccounts<T>(q: seq<Entry>, node: string, weigh: Entry -> multiset<T>)
    ensures Gather(q, weigh) == Gather(Without(q, node), weigh) + Gather(About(q, node), weigh)
  {
    if q != [] {
      WithoutAccounts(q[1..], node, weigh);
      if q[0].b.node == node {
        assert ([q[0]] + About(q[1..], node))[1..] == About(q[1..], node);
      } else {
        assert ([q[0]] + Without(q[1..], node))[1..] == Without(q[1..], node);
      }
    }
  }

  ghost predicate ByBroadcast<T>(weigh: Entry -> multiset<T>) {
    forall e: Entry, f: Entry | e.b == f.b :: weigh(e) == weigh(f)
  }

  /** A round loses no broadcast. */
  lemma {:induction false} TransmitKeeps<T>(q: seq<Entry>, overhead: nat, limit: int, most: int, used: int, weigh: Entry -> multiset<T>)
    requires ByBroadcast(weigh)
    ensures var r := Transmit(q, overhead, limit, most, used);
      Gather(r.kept, weigh) + Gather(r.gone, weigh) == Gather(q, weigh)
  {
    hide Gather, Transmit;
    if q == [] {
      TransmitNothing(overhead, limit, most, used, weigh);
    } else {
      var last, front := q[|q| - 1], q[..|q| - 1];
      var size := overhead + |last.b.message|;
      var fits := used + size <= limit;
      var next := if fits then used + size else used;
      TransmitKeeps(front, overhead, limit, most, next, weigh);
      TransmitStep(q, overhead, limit, most, used);
      var e := if fits then Entry(last.transmits + 1, last.b) else last;
      OneMore(Transmit(front, overhead, limit, most, next), e, Transmit(q, overhead, limit, most, used), weigh);
      assert q == front + [last];
      GatherAppend(front, [last], weigh);
      GatherOne(last, weigh);
      assert weigh(e) == weigh(last);
    }
  }

  /** And it counts every sending. */
  lemma {:induction false} TransmitCounts(q: seq<Entry>, overhead: nat, limit: int, most: int, used: int)
    ensures var r := Transmit(q, overhead, limit, most, used);
      Gather(r.kept, PerTransmit) + Gather(r.gone, PerTransmit) == Gather(q, PerTransmit) + multiset(r.sent)
  {
    hide Gather, Transmit, PerTransmit;
    if q == [] {
      TransmitNothing(overhead, limit, most, used, PerTransmit);
    } else {
      var last, front := q[|q| - 1], q[..|q| - 1];
      var size := overhead + |last.b.message|;
      var fits := used + size <= limit;
      var next := if fits then used + size else used;
      TransmitCounts(front, overhead, limit, most, next);
      TransmitStep(q, overhead, limit, most, used);
      var e := if fits then Entry(last.transmits + 1, last.b) else last;
      var f, r := Transmit(front, overhead, limit, most, next), Transmit(q, overhead, limit, most, used);
      OneMore(f, e, r, PerTransmit);
      assert q == front + [last];
      GatherAppend(front, [last], PerTransmit);
      GatherOne(last, PerTransmit);
      Counts(last, e, fits);
      SentMore(f.sent, last.b);
      AddUp(Gather(f.kept, PerTransmit) + Gather(f.gone, PerTransmit), Gather(front, PerTransmit), multiset(f.sent),
            PerTransmit(last), if fits then multiset{last.b} else multiset{});
    }
  }

  lemma AddUp<T>(all: multiset<T>, front: multiset<T>, sent: multiset<T>, w: multiset<T>, more: multiset<T>)
    requires all == front + sent
    ensures all + (w + more) == (front + w) + (sent + more)
  {
  }

  lemma SentMore(sent: seq<Broadcast>, b: Broadcast)
    ensures multiset([b] + sent) == multiset(sent) + multiset{b}
  {
  }

  lemma TransmitNothing<T>(overhead: nat, limit: int, most: int, used: int, weigh: Entry -> multiset<T>)
    ensures Transmit([], overhead, limit, most, used) == Round([], [], [])
    ensures Gather([], weigh) == multiset{}
  {
  }

  lemma TransmitStep(q: seq<Entry>, overhead: nat, limit: int, most: int, used: int)
    requires q != []
    ensures var last, front := q[|q| - 1], q[..|q| - 1];
      var size := overhead + |last.b.message|;
      var fits := used + size <= limit;
      var f := Transmit(front, overhead, limit, most, if fits then used + size else used);
      var e := if fits then Entry(last.transmits + 1, last.b) else last;
      var r := Transmit(q, overhead, limit, most, used);
      && ((r.kept == [e] + f.kept && r.gone == f.gone) || (r.kept == f.kept && r.gone == [e] + f.gone))
      && r.sent == if fits then [last.b] + f.sent else f.sent
  {
  }

  lemma Counts(last: Entry, e: Entry, fits: bool)
    requires e == if fits then Entry(last.transmits + 1, last.b) else last
    ensures Once(e) == Once(last)
    ensures PerTransmit(e) == PerTransmit(last) + if fits then multiset{last.b} else multiset{}
  {
  }

  lemma OneMore<T>(f: Round, e: Entry, r: Round, weigh: Entry -> multiset<T>)
    requires (r.kept == [e] + f.kept && r.gone == f.gone) || (r.kept == f.kept && r.gone == [e] + f.gone)
    ensures Gather(r.kept, weigh) + Gather(r.gone, weigh) == Gather(f.kept, weigh) + Gather(f.gone, weigh) + weigh(e)
  {
    assert ([e] + f.kept)[1..] == f.kept && ([e] + f.gone)[1..] == f.gone;
  }

  lemma GatherOne<T>(e: Entry, weigh: Entry -> multiset<T>)
    ensures Gather([e], weigh) == weigh(e)
  {
    assert [e][1..] == [];
  }

  /** The byte limit is kept, and nothing that was passed over would still fit. */
  lemma {:induction false} TransmitFits(q: seq<Entry>, overhead: nat, limit: int, most: int, used: int)
    ensures var r := Transmit(q, overhead, limit, most, used);
      && (r.sent != [] ==> used + Size(Messages(r.sent), overhead) <= limit)
      && (forall e | e in r.kept && e in q && e.b !in r.sent :: used + Size(Messages(r.sent), overhead) + overhead + |e.b.message| > limit)
  {
    if q != [] {
      var last, front := q[|q| - 1], q[..|q| - 1];
      var size := overhead + |last.b.message|;
      var fits := used + size <= limit;
      var f := Transmit(front, overhead, limit, most, if fits then used + size else used);
      TransmitFits(front, overhead, limit, most, if fits then used + size else used);
      if fits {
        assert Messages([last.b] + f.sent)[1..] == Messages(f.sent);
      }
    }
  }

  // ------------------------------------------------------- one per node

  function NodeOf(e: Entry): multiset<string> {
    multiset{e.b.node}
  }

  lemma {:induction false} CountsOfPairs(q: seq<Entry>, node: string)
    requires OnePerNode(q)
    ensures Gather(q, NodeOf)[node] <= 1
    ensures node in Gather(q, NodeOf) <==> exists i :: 0 <= i < |q| && q[i].b.node == node
  {
    if q != [] {
      CountsOfPairs(q[1..], node);
      if node in Gather(q[1..], NodeOf) {
        var i :| 0 <= i < |q[1..]| && q[1..][i].b.node == node;
        assert q[i + 1].b.node == node;
      }
      if i :| 0 <= i < |q| && q[i].b.node == node {
        assert i > 0 ==> q[1..][i - 1].b.node == node;
      }
    }
  }

  lemma {:induction false} PairsOfCounts(q: seq<Entry>)
    requires forall node :: Gather(q, NodeOf)[node] <= 1
    ensures OnePerNode(q)
  {
    if q != [] {
      forall node ensures Gather(q[1..], NodeOf)[node] <= 1 {
        assert Gather(q, NodeOf)[node] <= 1;
      }
      PairsOfCounts(q[1..]);
      CountsOfPairs(q[1..], q[0].b.node);
      assert Gather(q, NodeOf)[q[0].b.node] <= 1;
      forall j | 0 < j < |q| ensures q[0].b.node != q[j].b.node {
        assert q[j] == q[1..][j - 1];
      }
      forall i, j | 0 < i < j < |q| ensures q[i].b.node != q[j].b.node {
        assert q[i] == q[1..][i - 1] && q[j] == q[1..][j - 1];
      }
    }
  }

  /** After a round, in whatever order, there is still one entry per node. */
  lemma StillOnePerNode(q: seq<Entry>, kept: seq<Entry>, gone: seq<Entry>, r: seq<Entry>)
    requires OnePerNode(q) && multiset(r) == multiset(kept)
    requires Gather(kept, NodeOf) + Gather(gone, NodeOf) == Gather(q, NodeOf)
    ensures OnePerNode(r)
  {
    GatherPermuted(r, kept, NodeOf);
    forall node ensures Gather(r, NodeOf)[node] <= 1 {
      CountsOfPairs(q, node);
    }
    PairsOfCounts(r);
  }

  // ------------------------------------------------------- transmit counts

  /** Entries wait with fewer than `most` transmits and leave with no more than that. */
  lemma {:induction false} TransmitBounds(q: seq<Entry>, overhead: nat, limit: int, most: int, used: int, bound: int)
    requires 1 <= bound && most <= bound && forall e | e in q :: e.transmits < bound
    ensures var r := Transmit(q, overhead, limit, most, used);
      && (forall e | e in r.kept :: e.transmits < bound)
      && (forall e | e in r.gone :: e.transmits <= bound)
  {
    if q != [] {
      var last, front := q[|q| - 1], q[..|q| - 1];
      var size := overhead + |last.b.message|;
      TransmitBounds(front, overhead, limit, most, if used + size <= limit then used + size else used, bound);
    }
  }

  /** Nothing leaves before its count reaches the limit; what stays has not reached it, or was not sent. */
  lemma {:induction false} TransmitSpends(q: seq<Entry>, overhead: nat, limit: int, most: int, used: int)
    ensures var r := Transmit(q, overhead, limit, most, used);
      && (forall e | e in r.gone :: e.transmits >= Max(1, most))
      && (forall e | e in r.kept :: e.transmits < most || e in q)
  {
    if q != [] {
      var last, front := q[|q| - 1], q[..|q| - 1];
      var size := overhead + |last.b.message|;
      TransmitSpends(front, overhead, limit, most, if used + size <= limit then used + size else used);
      assert last in q && forall e | e in front :: e in q;
    }
  }

  /** The entries that left, by the reason: those sent often enough reached the limit, the others did not. */
  ghost predicate SpentOrDropped(departed: seq<Entry>, spent: seq<Entry>, dropped: seq<Entry>, least: int, bound: int) {
    && multiset(departed) == multiset(spent + dropped)
    && (forall e | e in spent :: e.transmits >= Max(1, least))
    && (forall e | e in dropped :: e.transmits < Max(1, bound))
  }

  lemma Spend(departed: seq<Entry>, spent: seq<Entry>, dropped: seq<Entry>, least: int, bound: int,
              q: seq<Entry>, overhead: nat, limit: int, most: int)
    requires SpentOrDropped(departed, spent, dropped, least, bound) && least <= most
    ensures var r := Transmit(q, overhead, limit, most, 0);
      SpentOrDropped(departed + r.gone, spent + r.gone, dropped, least, bound)
  {
    hide Transmit;
    TransmitSpends(q, overhead, limit, most, 0);
  }

  lemma Drop(departed: seq<Entry>, spent: seq<Entry>, dropped: seq<Entry>, least: int, bound: int, gone: seq<Entry>)
    requires SpentOrDropped(departed, spent, dropped, least, bound) && forall e | e in gone :: e.transmits < Max(1, bound)
    ensures SpentOrDropped(departed + gone, spent, dropped + gone, least, bound)
  {
    assert spent + (dropped + gone) == (spent + dropped) + gone;
  }

  /** A round sends only what is queued, and what stays was queued. */
  lemma {:induction false} TransmitFrom(q: seq<Entry>, overhead: nat, limit: int, most: int, used: int)
    ensures var r := Transmit(q, overhead, limit, most, used);
      && (forall e | e in r.kept :: exists f :: f in q && f.b == e.b)
      && (forall b | b in r.sent :: exists f :: f in q && f.b == b)
  {
    if q != [] {
      var last, front := q[|q| - 1], q[..|q| - 1];
      var size := overhead + |last.b.message|;
      var next := if used + size <= limit then used + size else used;
      TransmitFrom(front, overhead, limit, most, next);
      assert last in q;
      forall e | e in front ensures e in q {
      }
    }
  }

  // ---------------------------------------------------- replacing an entry

  /** What the loop over the queue leaves: it steps over the entry behind a removed one. */
  function Skipping(q: seq<Entry>, node: string): seq<Entry> {
    if q == [] then []
    else if q[0].b.node != node then [q[0]] + Skipping(q[1..], node)
    else if |q| == 1 then []
    else [q[1]] + Skipping(q[2..], node)
  }

  function Skipped(q: seq<Entry>, node: string): seq<Entry> {
    if q == [] then []
    else if q[0].b.node != node then Skipped(q[1..], node)
    else [q[0]] + if |q| == 1 then [] else Skipped(q[2..], node)
  }

  predicate Neighbours(q: seq<Entry>, node: string) {
    exists i :: 0 < i < |q| && q[i - 1].b.node == node == q[i].b.node
  }

  /** The step over an entry does no harm exactly when no two neighbours are about the node. */
  lemma {:induction false} SkippingExactly(q: seq<Entry>, node: string)
    ensures Skipping(q, node) == Without(q, node) <==> !Neighbours(q, node)
    decreases |q|
  {
    hide Neighbours;
    if q == [] {
      FewNeighbours(q, node);
    } else if q[0].b.node != node {
      SkippingExactly(q[1..], node);
      NeighboursLater(q, node);
      SameTail(q[0], Skipping(q[1..], node), Without(q[1..], node));
    } else if |q| == 1 {
      FewNeighbours(q, node);
    } else if q[1].b.node == node {
      WithoutNone(q, node);
      assert Skipping(q, node)[0] == q[1];
      NeighboursFirst(q, node);
    } else {
      assert q[1..][1..] == q[2..] && Without(q, node) == [q[1]] + Without(q[2..], node);
      SkippingExactly(q[2..], node);
      NeighboursLast(q, node);
      SameTail(q[1], Skipping(q[2..], node), Without(q[2..], node));
    }
  }

  lemma SameTail(e: Entry, p: seq<Entry>, q: seq<Entry>)
    ensures [e] + p == [e] + q <==> p == q
  {
    assert ([e] + p)[1..] == p && ([e] + q)[1..] == q;
  }

  lemma FewNeighbours(q: seq<Entry>, node: string)
    requires |q| <= 1
    ensures !Neighbours(q, node)
  {
  }

  lemma NeighboursFirst(q: seq<Entry>, node: string)
    requires |q| >= 2 && q[0].b.node == node == q[1].b.node
    ensures Neighbours(q, node)
  {
    assert q[1 - 1].b.node == node == q[1].b.node;
  }

  /** An entry about another node has no part in this. */
  lemma NeighboursLater(q: seq<Entry>, node: string)
    requires q != [] && q[0].b.node != node
    ensures Neighbours(q, node) <==> Neighbours(q[1..], node)
  {
    NeighboursBehind(q, 1, node);
    if Neighbours(q, node) {
      var i :| 0 < i < |q| && q[i - 1].b.node == node == q[i].b.node;
      assert q[1..][i - 2].b.node == node == q[1..][i - 1].b.node;
    }
  }

  lemma NeighboursLast(q: seq<Entry>, node: string)
    requires |q| >= 2 && q[1].b.node != node
    ensures Neighbours(q, node) <==> Neighbours(q[2..], node)
  {
    NeighboursBehind(q, 2, node);
    if Neighbours(q, node) {
      var i :| 0 < i < |q| && q[i - 1].b.node == node == q[i].b.node;
      assert q[2..][i - 3].b.node == node == q[2..][i - 2].b.node;
    }
  }

  lemma {:induction false} WithoutNone(q: seq<Entry>, node: string)
    ensures forall e | e in Without(q, node) :: e.b.node != node && e in q
  {
    if q != [] {
      WithoutNone(q[1..], node);
    }
  }

  lemma NeighboursBehind(q: seq<Entry>, k: nat, node: string)
    requires k <= |q|
    ensures Neighbours(q[k..], node) ==> Neighbours(q, node)
  {
    if Neighbours(q[k..], node) {
      var i :| 0 < i < |q[k..]| && q[k..][i - 1].b.node == node == q[k..][i].b.node;
      assert q[k + i - 1].b.node == node == q[k + i].b.node;
    }
  }

  lemma {:induction false} SkippedExactly(q: seq<Entry>, node: string)
    requires !Neighbours(q, node)
    ensures Skipped(q, node) == About(q, node)
  {
    if q != [] && q[0].b.node != node {
      NeighboursBehind(q, 1, node);
      SkippedExactly(q[1..], node);
    } else if |q| >= 2 {
      assert q[0].b.node == node ==> q[1].b.node != node;
      assert q[1..][1..] == q[2..];
      NeighboursBehind(q, 2, node);
      SkippedExactly(q[2..], node);
    }
  }

  // ---------------------------------------------------------- the queue

  /** All calls of Finished: the broadcasts of the entries that left. */
  function Broadcasts(q: seq<Entry>): (r: seq<Broadcast>)
    ensures |r| == |q|
  {
    seq(|q|, i requires 0 <= i < |q| => q[i].b)
  }

  class TransmitLimitedQueue {
    var bcQueue: seq<Entry>
    /** Broadcasts whose Finished has been called. */
    var finished: seq<Broadcast>

    // Logs: everything queued, everything sent, and the entries that left.
    ghost var queued: seq<Broadcast>
    ghost var sent: seq<Broadcast>
    ghost var departed: seq<Entry>
    // Those that left were sent often enough, or were replaced, pruned or reset.
    ghost var spent: seq<Entry>
    ghost var dropped: seq<Entry>
    /** No transmit limit is ever below or above these. */
    ghost const least: int
    ghost const bound: int

    constructor (ghost least: int, ghost bound: int)
      ensures Valid() && bcQueue == [] && finished == [] && queued == [] && sent == []
      ensures departed == [] && spent == [] && dropped == [] && this.least == least && this.bound == bound
    {
      bcQueue, finished, queued, sent := [], [], [], [];
      departed, spent, dropped := [], [], [];
      this.least, this.bound := least, bound;
    }

    ghost predicate Valid()
      reads this
    {
      && OnePerNode(bcQueue)
      && Descending(bcQueue)
      && (forall e | e in bcQueue :: Latest(queued, e.b.node) == [e.b])
      && finished == Broadcasts(departed)
      && multiset(queued) == Gather(bcQueue, Once) + Gather(departed, Once)
      && multiset(sent) == Gather(bcQueue, PerTransmit) + Gather(departed, PerTransmit)
      && (forall e | e in bcQueue :: e.transmits < Max(1, bound))
      && (forall e | e in departed :: e.transmits <= Max(1, bound))
      && SpentOrDropped(departed, spent, dropped, least, bound)
    }

    /** A new broadcast replaces the one about the same node, if that is still queued. */
    method QueueBroadcast(b: Broadcast)
      requires Valid()
      modifies this
      ensures Valid()
      ensures bcQueue == Without(old(bcQueue), b.node) + [Entry(0, b)]
      ensures departed == old(departed) + About(old(bcQueue), b.node)
      ensures queued == old(queued) + [b] && sent == old(sent)
      ensures spent == old(spent) && dropped == old(dropped) + About(old(bcQueue), b.node)
    {
      hide Skipping, Skipped, Without, About, Gather, Latest, OnePerNode, Descending, SpentOrDropped;
      ghost var q := bcQueue;
      Invalidate(b.node);
      bcQueue := bcQueue + [Entry(0, b)];
      queued := queued + [b];
      SkippingIs(q, b.node);
      ReplacedOrder(q, old(departed), b, old(queued), bound);
      ReplacedAccounts(q, old(departed), b, old(queued), old(sent));
      AboutIn(q, b.node);
      Drop(old(departed), spent, dropped, least, bound, About(q, b.node));
      dropped := dropped + About(q, b.node);
    }

    method TakeOut(i: nat)
      requires i < |bcQueue| && finished == Broadcasts(departed)
      modifies this`bcQueue, this`finished, this`departed
      ensures bcQueue == old(bcQueue)[..i] + old(bcQueue)[i + 1..] && departed == old(departed) + [old(bcQueue)[i]]
      ensures finished == Broadcasts(departed)
    {
      finished := finished + [bcQueue[i].b];
      departed := departed + [bcQueue[i]];
      bcQueue := bcQueue[..i] + bcQueue[i + 1..];
    }

    /** Take out entries about a node. */
    method Invalidate(node: string)
      requires finished == Broadcasts(departed)
      modifies this`bcQueue, this`finished, this`departed
      ensures finished == Broadcasts(departed)
      ensures bcQueue == Skipping(old(bcQueue), node) && departed == old(departed) + Skipped(old(bcQueue), node)
    {
      hide Skipping, Skipped, Broadcasts, Passing;
      ghost var kept, left := Skipping(bcQueue, node), departed + Skipped(bcQueue, node);
      PassNothing(bcQueue, departed, node);
      var n := |bcQueue|;
      var i := 0;
      while i < n
        invariant 0 <= i && n == |bcQueue| && finished == Broadcasts(departed)
        invariant Passing(bcQueue, i, departed, node, kept, left)
        decreases n - i
      {
        PassOne(bcQueue, i, departed, node, kept, left);
        if bcQueue[i].b.node == node {
          TakeOut(i);
          n := n - 1;
        }
        i := i + 1;
      }
      PassedAll(bcQueue, i, departed, node, kept, left);
    }

    /** Messages to send now: as many as fit into `limit` bytes, those sent least often first.
        `transmitLimit` is what the size of the cluster allows. */
    method GetBroadcasts(overhead: nat, limit: int, transmitLimit: int) returns (toSend: seq<seq<byte>>)
      requires Valid() && least <= transmitLimit <= bound
      modifies this
      ensures Valid() && queued == old(queued) && dropped == old(dropped)
      ensures var r := Transmit(old(bcQueue), overhead, limit, transmitLimit, 0);
        && toSend == Messages(r.sent) && sent == old(sent) + r.sent
        && departed == old(departed) + r.gone && spent == old(spent) + r.gone
        && multiset(bcQueue) == multiset(r.kept) && (r.sent == [] ==> bcQueue == old(bcQueue))
      ensures toSend != [] ==> Size(toSend, overhead) <= limit
    {
      hide Transmit, Gather, Latest, OnePerNode, Descending, Messages, Size, SpentOrDropped;
      ghost var q := bcQueue;
      ghost var r := Transmit(q, overhead, limit, transmitLimit, 0);
      RoundKeeps(q, overhead, limit, transmitLimit, queued, departed, sent, bound);
      TransmitFits(q, overhead, limit, transmitLimit, 0);
      Spend(departed, spent, dropped, least, bound, q, overhead, limit, transmitLimit);
      spent := spent + r.gone;
      if |bcQueue| == 0 {
        TransmitNothing(overhead, limit, transmitLimit, 0, Once);
        assert departed + r.gone == departed;
        return Messages([]);
      }
      toSend := SendRound(overhead, limit, transmitLimit);
      if |toSend| > 0 {
        Sort();
      } else {
        NothingSent(q, overhead, limit, transmitLimit, 0);
      }
      RoundSorted(q, r, bcQueue, queued, old(departed), sent, bound);
    }

    /** One pass over the queue from its back; what leaves is replaced by the last entry. */
    method SendRound(overhead: nat, limit: int, transmitLimit: int) returns (toSend: seq<seq<byte>>)
      requires finished == Broadcasts(departed)
      modifies this`bcQueue, this`finished, this`departed, this`sent
      ensures finished == Broadcasts(departed)
      ensures var r := Transmit(old(bcQueue), overhead, limit, transmitLimit, 0);
        && toSend == Messages(r.sent) && sent == old(sent) + r.sent && departed == old(departed) + r.gone
        && multiset(bcQueue) == multiset(r.kept) && (r.sent == [] ==> bcQueue == old(bcQueue))
    {
      hide Transmit, Broadcasts, Messages, Join, After;
      ghost var q := bcQueue;
      ghost var goal := Transmit(q, overhead, limit, transmitLimit, 0);
      ghost var done := Round([], [], []);
      var bytesUsed := 0;
      toSend := [];
      var i := |bcQueue| - 1;
      NoMessages();
      JoinNothing(goal);
      assert q[..i + 1] == q;
      while i >= 0
        invariant -1 <= i < |q| && i < |bcQueue| && bcQueue[..i + 1] == q[..i + 1] && finished == Broadcasts(departed)
        invariant goal == Join(done, Transmit(q[..i + 1], overhead, limit, transmitLimit, bytesUsed))
        invariant toSend == Messages(done.sent) && sent == old(sent) + done.sent && departed == old(departed) + done.gone
        invariant multiset(bcQueue[i + 1..]) == multiset(done.kept) && (done.sent == [] ==> bcQueue == q)
        decreases i
      {
        RoundStep(q, i, overhead, limit, transmitLimit, bytesUsed, done);
        PrefixOf(bcQueue, q, i);
        ghost var before := done;
        bytesUsed, toSend, done := Consider(i, overhead, limit, transmitLimit, bytesUsed, toSend, done);
        AfterGrows(before, q[i], bytesUsed, transmitLimit, old(sent), old(departed));
        i := i - 1;
      }
      TransmitNothing(overhead, limit, transmitLimit, bytesUsed, Once);
      JoinNothing(done);
      assert q[..0] == [] && bcQueue[0..] == bcQueue;
    }

    /** Send one entry if its message still fits. */
    method Consider(i: nat, overhead: nat, limit: int, transmitLimit: int, bytesUsed: int, toSend: seq<seq<byte>>, ghost done: Round)
      returns (used: int, more: seq<seq<byte>>, ghost next: Round)
      requires i < |bcQueue| && finished == Broadcasts(departed) && multiset(bcQueue[i + 1..]) == multiset(done.kept)
      requires toSend == Messages(done.sent)
      modifies this`bcQueue, this`finished, this`departed, this`sent
      ensures finished == Broadcasts(departed) && i <= |bcQueue| && bcQueue[..i] == old(bcQueue)[..i]
      ensures multiset(bcQueue[i..]) == multiset(next.kept) && more == Messages(next.sent)
      ensures var e := old(bcQueue)[i];
        var size := overhead + |e.b.message|;
        var fits := bytesUsed + size <= limit;
        && used == (if fits then bytesUsed + size else bytesUsed)
        && next == After(done, e, fits, transmitLimit)
        && sent == old(sent) + After(Round([], [], []), e, fits, transmitLimit).sent
        && departed == old(departed) + After(Round([], [], []), e, fits, transmitLimit).gone
        && (if fits then next.sent != [] else next.sent == done.sent && bcQueue == old(bcQueue))
    {
      hide Broadcasts, Messages;
      var e := bcQueue[i];
      used, more := bytesUsed, toSend;
      if bytesUsed + overhead + |e.b.message| > limit {
        next := Round(done.sent, done.kept + [e], done.gone);
        assert bcQueue[i..] == [e] + bcQueue[i + 1..];
      } else {
        used := bytesUsed + overhead + |e.b.message|;
        more := toSend + [e.b.message];
        OneMessage(done.sent, e.b);
        next := SendEntry(i, transmitLimit, done);
      }
    }

    /** Count a sending; an entry that has been sent often enough leaves. */
    method SendEntry(i: nat, transmitLimit: int, ghost done: Round) returns (ghost more: Round)
      requires i < |bcQueue| && finished == Broadcasts(departed) && multiset(bcQueue[i + 1..]) == multiset(done.kept)
      modifies this`bcQueue, this`finished, this`departed, this`sent
      ensures finished == Broadcasts(departed) && i <= |bcQueue|
      ensures bcQueue[..i] == old(bcQueue)[..i] && multiset(bcQueue[i..]) == multiset(more.kept)
      ensures sent == old(sent) + [old(bcQueue)[i].b]
      ensures var e := Entry(old(bcQueue)[i].transmits + 1, old(bcQueue)[i].b);
        if e.transmits >= transmitLimit
        then departed == old(departed) + [e] && more == Round(done.sent + [e.b], done.kept, done.gone + [e])
        else departed == old(departed) && more == Round(done.sent + [e.b], done.kept + [e], done.gone)
    {
      hide Broadcasts;
      var e := Entry(bcQueue[i].transmits + 1, bcQueue[i].b);
      sent := sent + [e.b];
      ghost var q := bcQueue;
      bcQueue := bcQueue[i := e];
      UpdateOne(q, i, e);
      if e.transmits >= transmitLimit {
        more := Round(done.sent + [e.b], done.kept, done.gone + [e]);
        Leave(i);
      } else {
        more := Round(done.sent + [e.b], done.kept + [e], done.gone);
      }
    }

    /** The last entry takes the place of one that leaves. */
    method Leave(i: nat)
      requires i < |bcQueue| && finished == Broadcasts(departed)
      modifies this`bcQueue, this`finished, this`departed
      ensures finished == Broadcasts(departed) && departed == old(departed) + [old(bcQueue)[i]] && i <= |bcQueue|
      ensures bcQueue[..i] == old(bcQueue)[..i] && multiset(bcQueue[i..]) == multiset(old(bcQueue)[i + 1..])
    {
      finished := finished + [bcQueue[i].b];
      departed := departed + [bcQueue[i]];
      var n := |bcQueue|;
      SwapTail(bcQueue, i);
      bcQueue := bcQueue[i := bcQueue[n - 1]][..n - 1];
      hide Broadcasts;
    }

    /** Entries in descending order of transmits; equal ones in any order. */
    method Sort()
      modifies this`bcQueue
      ensures multiset(bcQueue) == multiset(old(bcQueue)) && Descending(bcQueue)
    {
      hide Descending;
      ghost var q := bcQueue;
      var sorted: seq<Entry> := [];
      NothingUnsorted();
      while bcQueue != []
        invariant Descending(sorted) && multiset(sorted) + multiset(bcQueue) == multiset(q)
        decreases |bcQueue|
      {
        PullFirst(bcQueue);
        sorted := InsertDescending(sorted, bcQueue[0]);
        bcQueue := bcQueue[1..];
      }
      bcQueue := sorted;
    }

    /** Call Finished on the first `k` entries. */
    method FinishFirst(k: nat)
      requires k <= |bcQueue|
      modifies this`finished
      ensures finished == old(finished) + Broadcasts(bcQueue[..k])
    {
      assert Broadcasts(bcQueue[..0]) == [];
      for i := 0 to k
        invariant finished == old(finished) + Broadcasts(bcQueue[..i])
      {
        assert Broadcasts(bcQueue[..i + 1]) == Broadcasts(bcQueue[..i]) + [bcQueue[i].b];
        finished := finished + [bcQueue[i].b];
      }
    }

    /** Drop everything. */
    method Reset()
      requires Valid()
      modifies this
      ensures Valid() && bcQueue == [] && departed == old(departed) + old(bcQueue) && queued == old(queued) && sent == old(sent)
      ensures spent == old(spent) && dropped == old(dropped) + old(bcQueue)
    {
      hide Gather, Broadcasts, Latest, SpentOrDropped;
      Drop(departed, spent, dropped, least, bound, bcQueue);
      dropped := dropped + bcQueue;
      CutKeeps(bcQueue, 0, departed);
      FinishFirst(|bcQueue|);
      FinishedAll(departed, bcQueue);
      assert bcQueue[..|bcQueue|] == bcQueue && bcQueue[|bcQueue| - 0..] == [];
      departed := departed + bcQueue;
      bcQueue := [];
    }

    /** Keep the `maxRetain` entries at the back. */
    method Prune(maxRetain: nat)
      requires Valid()
      modifies this
      ensures Valid() && queued == old(queued) && sent == old(sent) && spent == old(spent)
      ensures |old(bcQueue)| < maxRetain ==> bcQueue == old(bcQueue) && departed == old(departed) && dropped == old(dropped)
      ensures |old(bcQueue)| >= maxRetain ==>
        var cut := |old(bcQueue)| - maxRetain;
        && bcQueue == old(bcQueue)[cut..]
        && departed == old(departed) + old(bcQueue)[..cut] && dropped == old(dropped) + old(bcQueue)[..cut]
        && forall e, f | e in bcQueue && f in old(bcQueue)[..cut] :: e.transmits <= f.transmits
    {
      hide Gather, Broadcasts, Latest, SpentOrDropped, OnePerNode, Descending;
      var n := |bcQueue|;
      if n < maxRetain { return; }
      CutOrder(bcQueue, n - maxRetain);
      Drop(departed, spent, dropped, least, bound, bcQueue[..n - maxRetain]);
      dropped := dropped + bcQueue[..n - maxRetain];
      CutKeeps(bcQueue, maxRetain, departed);
      FinishFirst(n - maxRetain);
      FinishedAll(departed, bcQueue[..n - maxRetain]);
      departed := departed + bcQueue[..n - maxRetain];
      bcQueue := bcQueue[n - maxRetain..];
    }
  }

  lemma Hand<T>(a: seq<T>, x: T, c: seq<T>)
    ensures a + ([x] + c) == (a + [x]) + c
  {
  }

  /** The loop that looks for invalidated entries has come to `i`: of the queue that is
      left it will keep `kept`, and `left` is what will have been taken out. */
  ghost predicate Passing(q: seq<Entry>, i: nat, gone: seq<Entry>, node: string, kept: seq<Entry>, left: seq<Entry>) {
    if i <= |q| then q[..i] + Skipping(q[i..], node) == kept && gone + Skipped(q[i..], node) == left
    else q == kept && gone == left
  }

  lemma PassNothing(q: seq<Entry>, gone: seq<Entry>, node: string)
    ensures Passing(q, 0, gone, node, Skipping(q, node), gone + Skipped(q, node))
  {
    assert q[0..] == q && q[..0] + Skipping(q, node) == Skipping(q, node);
    hide Skipping, Skipped;
  }

  /** One round of the loop. */
  lemma PassOne(q: seq<Entry>, i: nat, gone: seq<Entry>, node: string, kept: seq<Entry>, left: seq<Entry>)
    requires i < |q| && Passing(q, i, gone, node, kept, left)
    ensures if q[i].b.node != node then Passing(q, i + 1, gone, node, kept, left)
            else Passing(q[..i] + q[i + 1..], i + 1, gone + [q[i]], node, kept, left)
  {
    hide Skipping, Skipped;
    SkipOne(q[i..], node);
    assert q[i..][1..] == q[i + 1..];
    if q[i].b.node != node {
      Hand(q[..i], q[i], Skipping(q[i + 1..], node));
      assert q[..i] + [q[i]] == q[..i + 1];
    } else if i + 1 < |q| {
      PassOut(q, i, gone, node, kept, left);
    } else {
      assert q[i + 1..] == [] && q[..i] + [] == q[..i];
    }
  }

  lemma PassOut(q: seq<Entry>, i: nat, gone: seq<Entry>, node: string, kept: seq<Entry>, left: seq<Entry>)
    requires i + 1 < |q| && Passing(q, i, gone, node, kept, left) && q[i].b.node == node
    ensures Passing(q[..i] + q[i + 1..], i + 1, gone + [q[i]], node, kept, left)
  {
    hide Skipping, Skipped;
    SkipOne(q[i..], node);
    var r := q[..i] + q[i + 1..];
    assert q[i..][2..] == q[i + 2..] == r[i + 1..];
    Hand(q[..i], q[i + 1], Skipping(q[i + 2..], node));
    assert q[..i] + [q[i + 1]] == r[..i + 1];
    Hand(gone, q[i], Skipped(q[i + 2..], node));
  }

  lemma SkipOne(q: seq<Entry>, node: string)
    requires q != []
    ensures q[0].b.node != node ==> Skipping(q, node) == [q[0]] + Skipping(q[1..], node) && Skipped(q, node) == Skipped(q[1..], node)
    ensures q[0].b.node == node && |q| > 1 ==>
              Skipping(q, node) == [q[1]] + Skipping(q[2..], node) && Skipped(q, node) == [q[0]] + Skipped(q[2..], node)
    ensures q[0].b.node == node && |q| == 1 ==> Skipping(q, node) == [] && Skipped(q, node) == [q[0]]
  {
  }

  lemma PassedAll(q: seq<Entry>, i: nat, gone: seq<Entry>, node: string, kept: seq<Entry>, left: seq<Entry>)
    requires Passing(q, i, gone, node, kept, left) && i >= |q|
    ensures q == kept && gone == left
  {
    if i == |q| {
      assert q[i..] == [] && q[..i] == q;
    }
  }

  lemma SkippingIs(q: seq<Entry>, node: string)
    requires OnePerNode(q)
    ensures Skipping(q, node) == Without(q, node) && Skipped(q, node) == About(q, node)
  {
    hide Skipping, Skipped, Without, About;
    SkippingExactly(q, node);
    SkippedExactly(q, node);
  }

  /** What replacing an entry keeps. */
  lemma ReplacedOrder(q: seq<Entry>, departed: seq<Entry>, b: Broadcast, queued: seq<Broadcast>, bound: int)
    requires OnePerNode(q) && Descending(q)
    requires forall e | e in q :: Latest(queued, e.b.node) == [e.b]
    requires forall e | e in q :: e.transmits < Max(1, bound)
    requires forall e | e in departed :: e.transmits <= Max(1, bound)
    ensures var r := Without(q, b.node) + [Entry(0, b)];
      && OnePerNode(r) && Descending(r)
      && (forall e | e in r :: Latest(queued + [b], e.b.node) == [e.b])
      && (forall e | e in r :: e.transmits < Max(1, bound))
      && (forall e | e in departed + About(q, b.node) :: e.transmits <= Max(1, bound))
  {
    hide Without, About;
    WithoutNone(q, b.node);
    WithoutOrdered(q, b.node);
    AboutIn(q, b.node);
    assert (queued + [b])[..|queued|] == queued;
  }

  lemma ReplacedAccounts(q: seq<Entry>, departed: seq<Entry>, b: Broadcast, queued: seq<Broadcast>, sent: seq<Broadcast>)
    requires multiset(queued) == Gather(q, Once) + Gather(departed, Once)
    requires multiset(sent) == Gather(q, PerTransmit) + Gather(departed, PerTransmit)
    ensures var r, d := Without(q, b.node) + [Entry(0, b)], departed + About(q, b.node);
      && multiset(queued + [b]) == Gather(r, Once) + Gather(d, Once)
      && multiset(sent) == Gather(r, PerTransmit) + Gather(d, PerTransmit)
  {
    hide Without, About, Gather;
    var w, a, e := Without(q, b.node), About(q, b.node), Entry(0, b);
    WithoutAccounts(q, b.node, Once);
    WithoutAccounts(q, b.node, PerTransmit);
    GatherAppend(w, [e], Once);
    GatherAppend(w, [e], PerTransmit);
    GatherAppend(departed, a, Once);
    GatherAppend(departed, a, PerTransmit);
    GatherOne(e, Once);
    GatherOne(e, PerTransmit);
    assert PerTransmit(e) == multiset{};
    hide Once, PerTransmit;
  }

  lemma {:induction false} AboutIn(q: seq<Entry>, node: string)
    ensures forall e | e in About(q, node) :: e in q
  {
    if q != [] {
      AboutIn(q[1..], node);
    }
  }

  lemma {:induction false} WithoutOrdered(q: seq<Entry>, node: string)
    requires OnePerNode(q) && Descending(q)
    ensures OnePerNode(Without(q, node)) && Descending(Without(q, node))
    decreases |q|
  {
    hide OnePerNode, Descending;
    if q != [] {
      TailOrdered(q);
      WithoutOrdered(q[1..], node);
      WithoutNone(q[1..], node);
      FrontOrdered(q[0], Without(q[1..], node));
    }
  }

  lemma TailOrdered(q: seq<Entry>)
    requires q != [] && OnePerNode(q) && Descending(q)
    ensures OnePerNode(q[1..]) && Descending(q[1..])
    ensures forall e | e in q[1..] :: q[0].b.node != e.b.node && q[0].transmits >= e.transmits
  {
  }

  lemma FrontOrdered(e: Entry, w: seq<Entry>)
    requires OnePerNode(w) && Descending(w)
    requires forall f | f in w :: e.b.node != f.b.node && e.transmits >= f.transmits
    ensures OnePerNode([e] + w) && Descending([e] + w)
  {
    forall j | 0 <= j < |w| ensures e.b.node != w[j].b.node && e.transmits >= w[j].transmits {
      assert w[j] in w;
    }
  }

  lemma PullFirst<T>(q: seq<T>)
    requires q != []
    ensures multiset(q) == multiset(q[1..]) + multiset{q[0]}
  {
    assert q == [q[0]] + q[1..];
  }

  lemma NothingUnsorted()
    ensures Descending([])
  {
  }

  method InsertDescending(s: seq<Entry>, e: Entry) returns (r: seq<Entry>)
    requires Descending(s)
    ensures Descending(r) && multiset(r) == multiset(s) + multiset{e}
  {
    var k := 0;
    while k < |s| && s[k].transmits >= e.transmits
      invariant 0 <= k <= |s| && forall j | 0 <= j < k :: s[j].transmits >= e.transmits
    {
      k := k + 1;
    }
    r := s[..k] + [e] + s[k..];
    Inserted(s, e, k);
  }

  lemma Inserted(s: seq<Entry>, e: Entry, k: nat)
    requires Descending(s) && k <= |s|
    requires (forall j | 0 <= j < k :: s[j].transmits >= e.transmits) && (k < |s| ==> s[k].transmits < e.transmits)
    ensures var r := s[..k] + [e] + s[k..]; Descending(r) && multiset(r) == multiset(s) + multiset{e}
  {
    assert multiset(s[..k] + [e] + s[k..]) == multiset(s) + multiset{e} by { assert s == s[..k] + s[k..]; }
    DescendingSplit(s, k);
    DescendingJoin(s[..k], [e]);
    DescendingJoin(s[..k] + [e], s[k..]);
  }

  lemma DescendingSplit(s: seq<Entry>, k: nat)
    requires Descending(s) && k <= |s|
    ensures Descending(s[..k]) && Descending(s[k..])
    ensures k < |s| ==> forall x | x in s[k..] :: x.transmits <= s[k].transmits
    ensures forall x, y | x in s[..k] && y in s[k..] :: x.transmits >= y.transmits
  {
  }

  lemma DescendingJoin(p: seq<Entry>, q: seq<Entry>)
    requires Descending(p) && Descending(q) && forall x, y | x in p && y in q :: x.transmits >= y.transmits
    ensures Descending(p + q)
  {
    forall i, j | 0 <= i <= j < |p + q| ensures (p + q)[i].transmits >= (p + q)[j].transmits {
      if i < |p| && |p| <= j {
        assert p[i] in p && q[j - |p|] in q;
      }
    }
  }

  lemma FinishedAll(p: seq<Entry>, q: seq<Entry>)
    ensures Broadcasts(p + q) == Broadcasts(p) + Broadcasts(q)
  {
  }

  lemma CutOrder(q: seq<Entry>, cut: nat)
    requires cut <= |q| && OnePerNode(q) && Descending(q)
    ensures OnePerNode(q[cut..]) && Descending(q[cut..])
    ensures forall e, f | e in q[cut..] && f in q[..cut] :: e.transmits <= f.transmits
    ensures forall e | e in q[cut..] || e in q[..cut] :: e in q
  {
  }

  lemma NoMessages()
    ensures Messages([]) == []
  {
  }

  lemma OneMessage(bs: seq<Broadcast>, b: Broadcast)
    ensures Messages(bs + [b]) == Messages(bs) + [b.message]
  {
  }

  lemma JoinNothing(r: Round)
    ensures Join(Round([], [], []), r) == r && Join(r, Round([], [], [])) == r
  {
  }

  lemma PrefixOf(p: seq<Entry>, q: seq<Entry>, i: nat)
    requires i < |p| && i < |q| && p[..i + 1] == q[..i + 1]
    ensures p[..i] == q[..i] && p[i] == q[i]
  {
    assert p[..i] == p[..i + 1][..i] && q[..i] == q[..i + 1][..i];
    assert p[i] == p[..i + 1][i] && q[i] == q[..i + 1][i];
  }

  /** The round so far, after one more entry. */
  function After(done: Round, last: Entry, fits: bool, most: int): Round {
    var e := Entry(last.transmits + 1, last.b);
    if !fits then Round(done.sent, done.kept + [last], done.gone)
    else if e.transmits >= most then Round(done.sent + [e.b], done.kept, done.gone + [e])
    else Round(done.sent + [e.b], done.kept + [e], done.gone)
  }

  lemma AfterGrows(done: Round, e: Entry, used: int, most: int, sent: seq<Broadcast>, departed: seq<Entry>)
    ensures forall fits :: sent + done.sent + After(Round([], [], []), e, fits, most).sent == sent + After(done, e, fits, most).sent
    ensures forall fits :: departed + done.gone + After(Round([], [], []), e, fits, most).gone == departed + After(done, e, fits, most).gone
  {
  }

  /** One round of the loop that sends. */
  lemma RoundStep(q: seq<Entry>, i: nat, overhead: nat, limit: int, most: int, used: int, done: Round)
    requires i < |q|
    ensures var size := overhead + |q[i].b.message|;
      var fits := used + size <= limit;
      Join(done, Transmit(q[..i + 1], overhead, limit, most, used))
        == Join(After(done, q[i], fits, most), Transmit(q[..i], overhead, limit, most, if fits then used + size else used))
  {
    assert q[..i + 1][..i] == q[..i] && q[..i + 1][i] == q[i];
  }

  lemma UpdateOne(q: seq<Entry>, i: nat, e: Entry)
    requires i < |q|
    ensures q[i := e][..i] == q[..i] && q[i := e][i + 1..] == q[i + 1..]
    ensures multiset(q[i := e][i..]) == multiset(q[i + 1..]) + multiset{e}
  {
    assert q[i := e][i..] == [e] + q[i + 1..];
  }

  lemma SwapTail(q: seq<Entry>, i: nat)
    requires i < |q|
    ensures var n := |q|;
      var r := q[i := q[n - 1]][..n - 1];
      |r| == n - 1 && r[..i] == q[..i] && multiset(r[i..]) == multiset(q[i + 1..])
  {
    var n := |q|;
    var r := q[i := q[n - 1]][..n - 1];
    if i < n - 1 {
      assert r[i..] == [q[n - 1]] + q[i + 1..n - 1];
      assert q[i + 1..] == q[i + 1..n - 1] + [q[n - 1]];
    } else {
      assert r[i..] == [] && q[i + 1..] == [];
    }
  }

  lemma LastFirst(kept: seq<Entry>, q: seq<Entry>)
    requires q != []
    ensures multiset(kept) == multiset(q[..|q| - 1]) ==> multiset([q[|q| - 1]] + kept) == multiset(q)
  {
    assert q == q[..|q| - 1] + [q[|q| - 1]];
  }

  lemma {:induction false} NothingSent(q: seq<Entry>, overhead: nat, limit: int, most: int, used: int)
    ensures var r := Transmit(q, overhead, limit, most, used); r.sent == [] ==> r.gone == [] && multiset(r.kept) == multiset(q)
  {
    if q != [] {
      var last, front := q[|q| - 1], q[..|q| - 1];
      if used + overhead + |last.b.message| > limit {
        NothingSent(front, overhead, limit, most, used);
        LastFirst(Transmit(front, overhead, limit, most, used).kept, q);
      }
    }
  }

  /** What a round keeps, before sorting. */
  lemma RoundKeeps(q: seq<Entry>, overhead: nat, limit: int, most: int, queued: seq<Broadcast>, departed: seq<Entry>,
                   sent: seq<Broadcast>, bound: int)
    requires forall e | e in q :: Latest(queued, e.b.node) == [e.b]
    requires multiset(queued) == Gather(q, Once) + Gather(departed, Once)
    requires multiset(sent) == Gather(q, PerTransmit) + Gather(departed, PerTransmit)
    requires forall e | e in q :: e.transmits < Max(1, bound)
    requires forall e | e in departed :: e.transmits <= Max(1, bound)
    requires most <= bound
    ensures var r := Transmit(q, overhead, limit, most, 0);
      && (forall e | e in r.kept :: Latest(queued, e.b.node) == [e.b])
      && multiset(queued) == Gather(r.kept, Once) + Gather(departed + r.gone, Once)
      && multiset(sent + r.sent) == Gather(r.kept, PerTransmit) + Gather(departed + r.gone, PerTransmit)
      && (forall e | e in r.kept :: e.transmits < Max(1, bound))
      && (forall e | e in departed + r.gone :: e.transmits <= Max(1, bound))
      && Gather(r.kept, NodeOf) + Gather(r.gone, NodeOf) == Gather(q, NodeOf)
  {
    hide Transmit, Gather, Latest, Once, PerTransmit, NodeOf;
    WeighByBroadcast();
    var r := Transmit(q, overhead, limit, most, 0);
    TransmitKeeps(q, overhead, limit, most, 0, Once);
    TransmitKeeps(q, overhead, limit, most, 0, NodeOf);
    TransmitCounts(q, overhead, limit, most, 0);
    TransmitBounds(q, overhead, limit, most, 0, Max(1, bound));
    TransmitFrom(q, overhead, limit, most, 0);
    GatherAppend(departed, r.gone, Once);
    GatherAppend(departed, r.gone, PerTransmit);
    assert multiset(sent + r.sent) == multiset(sent) + multiset(r.sent);
    Regroup(Gather(q, Once), Gather(departed, Once), Gather(r.kept, Once), Gather(r.gone, Once), multiset{}, multiset(queued));
    Regroup(Gather(q, PerTransmit), Gather(departed, PerTransmit), Gather(r.kept, PerTransmit), Gather(r.gone, PerTransmit),
            multiset(r.sent), multiset(sent));
  }

  lemma WeighByBroadcast()
    ensures ByBroadcast(Once) && ByBroadcast(NodeOf)
  {
  }

  lemma Regroup<T>(q: multiset<T>, dep: multiset<T>, kept: multiset<T>, gone: multiset<T>, s: multiset<T>, all: multiset<T>)
    requires all == q + dep && kept + gone == q + s
    ensures all + s == kept + (dep + gone)
  {
    assert kept + (dep + gone) == (kept + gone) + dep;
  }

  /** And after it. */
  lemma RoundSorted(q: seq<Entry>, r: Round, s: seq<Entry>, queued: seq<Broadcast>, departed: seq<Entry>, sent: seq<Broadcast>, bound: int)
    requires OnePerNode(q) && multiset(s) == multiset(r.kept)
    requires Gather(r.kept, NodeOf) + Gather(r.gone, NodeOf) == Gather(q, NodeOf)
    requires forall e | e in r.kept :: Latest(queued, e.b.node) == [e.b]
    requires multiset(queued) == Gather(r.kept, Once) + Gather(departed + r.gone, Once)
    requires multiset(sent) == Gather(r.kept, PerTransmit) + Gather(departed + r.gone, PerTransmit)
    requires forall e | e in r.kept :: e.transmits < Max(1, bound)
    ensures OnePerNode(s)
    ensures forall e | e in s :: Latest(queued, e.b.node) == [e.b] && e.transmits < Max(1, bound)
    ensures multiset(queued) == Gather(s, Once) + Gather(departed + r.gone, Once)
    ensures multiset(sent) == Gather(s, PerTransmit) + Gather(departed + r.gone, PerTransmit)
  {
    hide Gather, Latest, OnePerNode;
    StillOnePerNode(q, r.kept, r.gone, s);
    GatherPermuted(s, r.kept, Once);
    GatherPermuted(s, r.kept, PerTransmit);
    forall e | e in s ensures e in r.kept {
      assert e in multiset(s);
    }
  }

  /** Dropping entries from the front. */
  lemma CutKeeps(q: seq<Entry>, keep: nat, departed: seq<Entry>)
    requires keep <= |q|
    ensures Gather(q[|q| - keep..], Once) + Gather(departed + q[..|q| - keep], Once) == Gather(q, Once) + Gather(departed, Once)
    ensures Gather(q[|q| - keep..], PerTransmit) + Gather(departed + q[..|q| - keep], PerTransmit)
         == Gather(q, PerTransmit) + Gather(departed, PerTransmit)
  {
    hide Gather;
    var f, b := q[..|q| - keep], q[|q| - keep..];
    assert q == f + b;
    GatherAppend(f, b, Once);
    GatherAppend(f, b, PerTransmit);
    GatherAppend(departed, f, Once);
    GatherAppend(departed, f, PerTransmit);
    hide Once, PerTransmit;
  }

  /** The number of times a broadcast queued once has been sent, in any reachable state. */
  lemma SentAtMost(queue: TransmitLimitedQueue, b: Broadcast)
    requires queue.Valid() && multiset(queue.queued)[b] == 1
    ensures multiset(queue.sent)[b] <= Max(1, queue.bound)
    ensures multiset(queue.finished)[b] + multiset(Broadcasts(queue.bcQueue))[b] == 1
  {
    OnceCounts(queue.bcQueue, b);
    OnceCounts(queue.departed, b);
    if Gather(queue.bcQueue, Once)[b] == 1 {
      SentCounts(queue.bcQueue, b, Max(1, queue.bound));
      SentCounts(queue.departed, b, Max(1, queue.bound));
    } else {
      SentCounts(queue.departed, b, Max(1, queue.bound));
      SentCounts(queue.bcQueue, b, Max(1, queue.bound));
    }
  }

  lemma {:induction false} OnceCounts(q: seq<Entry>, b: Broadcast)
    ensures Gather(q, Once)[b] == multiset(Broadcasts(q))[b]
  {
    if q != [] {
      OnceCounts(q[1..], b);
      assert Broadcasts(q) == [q[0].b] + Broadcasts(q[1..]);
    }
  }

  lemma {:induction false} SentCounts(q: seq<Entry>, b: Broadcast, bound: nat)
    requires forall e | e in q :: e.transmits <= bound
    ensures Gather(q, Once)[b] == 0 ==> Gather(q, PerTransmit)[b] == 0
    ensures Gather(q, Once)[b] == 1 ==> Gather(q, PerTransmit)[b] <= bound
    decreases |q|
  {
    if q != [] {
      SentCounts(q[1..], b, bound);
      assert q[0] in q;
    }
  }

  /** While the limit is always L, a broadcast queued once has been sent exactly max(1, L) times if and
      only if it is finished and was not replaced, pruned or reset. */
  lemma SentExactly(queue: TransmitLimitedQueue, b: Broadcast)
    requires queue.Valid() && queue.least == queue.bound && multiset(queue.queued)[b] == 1
    ensures multiset(queue.sent)[b] == Max(1, queue.bound) <==> b in queue.finished && b !in Broadcasts(queue.dropped)
  {
    var full := Max(1, queue.bound);
    var q, gone, spent, dropped := queue.bcQueue, queue.departed, queue.spent, queue.dropped;
    assert multiset(queue.queued) == Gather(q, Once) + Gather(gone, Once);
    assert multiset(queue.sent) == Gather(q, PerTransmit) + Gather(gone, PerTransmit);
    assert queue.finished == Broadcasts(gone);
    hide Gather, Broadcasts, Once, PerTransmit;
    GatherPermuted(gone, spent + dropped, Once);
    GatherPermuted(gone, spent + dropped, PerTransmit);
    GatherAppend(spent, dropped, Once);
    GatherAppend(spent, dropped, PerTransmit);
    SentCounts(q, b, full - 1);
    SentCounts(dropped, b, full - 1);
    SpentCounts(spent, b, full);
    OnceCounts(gone, b);
    OnceCounts(dropped, b);
    forall e | e in spent ensures e.transmits <= full {
      assert e in multiset(gone);
    }
    SentCounts(spent, b, full);
  }

  lemma {:induction false} SpentCounts(q: seq<Entry>, b: Broadcast, least: nat)
    requires forall e | e in q :: e.transmits >= least
    ensures Gather(q, Once)[b] == 1 ==> Gather(q, PerTransmit)[b] >= least
    decreases |q|
  {
    if q != [] {
      SpentCounts(q[1..], b, least);
      assert q[0] in q;
      if q[0].b == b && Gather(q, Once)[b] == 1 {
        assert Gather(q, PerTransmit)[b] >= PerTransmit(q[0])[b];
      }
    }
  }
}
