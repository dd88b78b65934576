/** A whole cluster of members that gossip, crash and come up again: only a node itself raises its incarnation. */
module SwimCluster {
  import opened Swim

  /** Members by name, and everything that has been sent: messages, and lines of tables
      handed over in state exchanges.  Both may arrive late, often, or never.  `claimed` is the
      highest incarnation a member has had, in all its lives. */
  datatype Cluster = Cluster(members: map<string, View>, claimed: map<string, nat>, net: set<Message>, lines: set<Remote>)

  /** The incarnation a node claims for itself. */
  function Own(v: View): nat {
    if v.local in v.table then v.table[v.local].incarnation else v.incarnation
  }

  function Max(a: nat, b: nat): nat {
    if a >= b then a else b
  }

  /** A step for which there is a reason: something sent, a suspicion of one's own after a
      probe that failed, or one's own death when leaving. */
  ghost predicate Sourced(c: Cluster, v: View, s: Step) {
    match s
    case HearAlive(a, _) => a in c.net
    case HearSuspect(m) => m in c.net || (m.node in v.table && m == Suspect(v.table[m.node].incarnation, m.node, v.local))
    case HearDead(m) => m in c.net || (v.leave && m.node == v.local && v.local in v.table && m.incarnation <= v.table[v.local].incarnation)
    case Exchange(r, _) => r in c.lines
    case _ => true
  }

  /** Member `p` takes a step, and what it broadcasts is on the net. */
  ghost predicate MemberSteps(c: Cluster, p: string, s: Step, now: nat, d: Cluster) {
    && p in c.members && Possible(c.members[p], s) && Sourced(c, c.members[p], s)
    && var r := Do(c.members[p], s, now);
       d == c.(members := c.members[p := r.view], net := c.net + (set m | m in r.out),
               claimed := c.claimed[p := Max(Claimed(c, p), Own(r.view))])
  }

  function Claimed(c: Cluster, p: string): nat {
    if p in c.claimed then c.claimed[p] else 0
  }

  /** Member `q` hands over what it believes of `n`. */
  ghost predicate MemberShares(c: Cluster, q: string, n: string, d: Cluster) {
    && q in c.members && n in c.members[q].table
    && var e := c.members[q].table[n];
       d == c.(lines := c.lines + {Remote(n, e.status, e.incarnation, e.address, e.meta, e.vsn)})
  }

  ghost predicate Unheard(c: Cluster, p: string) {
    && (forall q | q in c.members :: p !in c.members[q].table)
    && (forall m | m in c.net :: m.node != p) && (forall r | r in c.lines :: r.name != p)
  }

  /** A member comes up, knowing nothing and counting from one: for the first time, under a name nobody
      has heard of, or again after a crash, while its former words are still about. */
  ghost predicate MemberComesUp(c: Cluster, p: string, a: Message, now: nat, d: Cluster) {
    && a.Alive? && a.node == p && a.incarnation == 1
    && (p in c.claimed || Unheard(c, p))
    && var r := OnAlive(View(p, map[], 1, false), a, true, true, now);
       d == c.(members := c.members[p := r.view], net := c.net + (set m | m in r.out),
               claimed := c.claimed[p := Max(Claimed(c, p), 1)])
  }

  type Claims = map<string, nat>

  /** A member's view of itself. */
  ghost predicate SelfHonest(v: View, p: string, claimed: Claims) {
    v.local == p && p in claimed && Own(v) <= claimed[p] && KnowsItself(v) && Counts(v)
  }

  ghost predicate TableHonest(v: View, claimed: Claims) {
    forall n | n in v.table && n in claimed :: v.table[n].incarnation <= claimed[n]
  }

  ghost predicate NetHonest(net: set<Message>, claimed: Claims) {
    forall m | m in net && m.node in claimed :: m.incarnation <= claimed[m.node]
  }

  ghost predicate LinesHonest(lines: set<Remote>, claimed: Claims) {
    forall r | r in lines && r.name in claimed :: r.incarnation <= claimed[r.name]
  }

  /** What anyone says or believes of a member's incarnation, the member has had, in this life or before. */
  ghost predicate Honest(c: Cluster) {
    && (forall p | p in c.members :: SelfHonest(c.members[p], p, c.claimed) && TableHonest(c.members[p], c.claimed))
    && NetHonest(c.net, c.claimed) && LinesHonest(c.lines, c.claimed)
  }

  /** Until it leaves, a member has counted as far as it says. */
  predicate Counts(v: View) {
    !v.leave ==> Own(v) <= v.incarnation
  }

  /** The node a step is about, and the incarnation it comes with. */
  function Topic(v: View, s: Step): (string, nat) {
    match s
    case HearAlive(a, _) => (a.node, a.incarnation)
    case HearSuspect(m) => (m.node, m.incarnation)
    case HearDead(m) => (m.node, m.incarnation)
    case Exchange(r, _) => (r.name, r.incarnation)
    case Timeout(n, _) => (n, if n in v.table then v.table[n].incarnation else 0)
    case Announce(m, _) => (m.node, m.incarnation)
    case _ => (v.local, Own(v))
  }

  /** Incarnations in the new table are the old ones, the one heard, zero for a newcomer, or,
      of the member itself, its own; incarnations in messages likewise. */
  ghost predicate Bounded(v: View, r: Outcome, node: string, heard: nat) {
    && Counts(r.view) && r.view.local == v.local
    && (forall n | n in r.view.table && n != v.local ::
          || (n in v.table && r.view.table[n].incarnation == v.table[n].incarnation)
          || r.view.table[n].incarnation == 0
          || (n == node && r.view.table[n].incarnation == heard))
    && (forall m | m in r.out ::
          if m.node == v.local then m.incarnation <= Own(r.view) else m.node == node && m.incarnation == heard)
  }

  lemma AliveBounds(v: View, a: Message, bootstrap: bool, admitted: bool, now: nat)
    requires a.Alive? && Counts(v) && (v.local in v.table || v.leave)
    requires a.node == v.local && bootstrap ==> a.incarnation <= v.incarnation
    ensures Bounded(v, OnAlive(v, a, bootstrap, admitted, now), a.node, a.incarnation)
  {
  }

  lemma ClaimBounds(v: View, m: Message, now: nat)
    requires Counts(v)
    ensures m.Suspect? ==> Bounded(v, OnSuspect(v, m, now), m.node, m.incarnation)
    ensures m.Dead? ==> Bounded(v, OnDead(v, m, now), m.node, m.incarnation)
  {
  }

  lemma StepBounds(v: View, s: Step, now: nat)
    requires Possible(v, s) && Counts(v) && KnowsItself(v)
    ensures Bounded(v, Do(v, s, now), Topic(v, s).0, Topic(v, s).1)
  {
    hide Bounded, OnAlive, OnSuspect, OnDead, Reaped, Counts, KnowsItself;
    ItselfKnown(v);
    match s
    case HearAlive(a, admitted) => AliveBounds(v, a, false, admitted, now);
    case Announce(a, lets) => AliveBounds(v, a, true, lets, now);
    case HearSuspect(m) => ClaimBounds(v, m, now);
    case HearDead(m) => ClaimBounds(v, m, now);
    case Exchange(r, admits) =>
      AliveBounds(v, Alive(r.incarnation, r.name, r.address, r.meta, r.vsn), false, admits, now);
      ClaimBounds(v, Suspect(r.incarnation, r.name, v.local), now);
    case Timeout(n, _) =>
      QuietBounds(v, n, Topic(v, s).1);
      if n in v.table {
        ClaimBounds(v, Dead(v.table[n].incarnation, n, v.local), now);
      }
    case _ => QuietBounds(v, Topic(v, s).0, Topic(v, s).1);
  }

  lemma QuietBounds(v: View, node: string, heard: nat)
    requires Counts(v) && KnowsItself(v)
    ensures Bounded(v, Outcome(v, []), node, heard) && Bounded(v, Outcome(Reaped(v), []), node, heard)
    ensures Bounded(v, Outcome(v.(incarnation := v.incarnation + 1), []), node, heard)
    ensures Bounded(v, Outcome(v.(leave := true), []), node, heard)
  {
  }

  /** Claims only grow. */
  lemma GrowthKeeps(c: Cluster, p: string, k: nat)
    requires Honest(c) && (p in c.claimed || Unheard(c, p))
    ensures var claimed := c.claimed[p := Max(Claimed(c, p), k)];
      && (forall q | q in c.members :: SelfHonest(c.members[q], q, claimed) && TableHonest(c.members[q], claimed))
      && NetHonest(c.net, claimed) && LinesHonest(c.lines, claimed)
  {
    hide Own, KnowsItself, Counts;
  }

  /** What a member believes after a step, and says. */
  lemma StepIsHonest(c: Cluster, p: string, s: Step, now: nat)
    requires Honest(c) && p in c.members && Possible(c.members[p], s) && Sourced(c, c.members[p], s)
    ensures var r := Do(c.members[p], s, now);
      var claimed := c.claimed[p := Max(Claimed(c, p), Own(r.view))];
      SelfHonest(r.view, p, claimed) && TableHonest(r.view, claimed) && NetHonest((set m | m in r.out), claimed)
  {
    var v := c.members[p];
    assert SelfHonest(v, p, c.claimed) && TableHonest(v, c.claimed);
    TopicHonest(c, p, s);
    hide Do, Possible, Topic, Own, Sourced, KnowsItself, Counts, Honest;
    StepBounds(v, s, now);
    StepKnows(v, s, now);
    OwnIs(Do(v, s, now).view);
  }

  /** Every step of every member keeps this. */
  lemma StaysHonest(c: Cluster, p: string, s: Step, now: nat, d: Cluster)
    requires Honest(c) && MemberSteps(c, p, s, now, d)
    ensures Honest(d)
  {
    assert p in c.claimed by { assert SelfHonest(c.members[p], p, c.claimed); }
    hide Do, Possible, Own, Sourced, SelfHonest, TableHonest;
    var k := Own(Do(c.members[p], s, now).view);
    GrowthKeeps(c, p, k);
    StepIsHonest(c, p, s, now);
  }

  lemma ItselfKnown(v: View)
    requires KnowsItself(v)
    ensures v.local in v.table || v.leave
  {
  }

  lemma OwnIs(v: View)
    ensures v.local in v.table ==> Own(v) == v.table[v.local].incarnation
  {
  }

  lemma TopicHonest(c: Cluster, p: string, s: Step)
    requires Honest(c) && p in c.members && Possible(c.members[p], s) && Sourced(c, c.members[p], s)
    ensures var t := Topic(c.members[p], s);
      !s.Announce? && t.0 in c.claimed ==> t.1 <= c.claimed[t.0]
    ensures s.Announce? ==> Topic(c.members[p], s).0 == p
  {
  }

  lemma SharingStaysHonest(c: Cluster, q: string, n: string, d: Cluster)
    requires Honest(c) && MemberShares(c, q, n, d)
    ensures Honest(d)
  {
  }

  /** A member that comes up keeps it too, also when it comes up again. */
  lemma ComingUpStaysHonest(c: Cluster, p: string, a: Message, now: nat, d: Cluster)
    requires Honest(c) && MemberComesUp(c, p, a, now, d)
    ensures Honest(d)
  {
    NewcomerIsHonest(p, a, now, d.claimed);
    hide OnAlive, SelfHonest, TableHonest;
    GrowthKeeps(c, p, 1);
  }

  lemma NewcomerIsHonest(p: string, a: Message, now: nat, claimed: Claims)
    requires a.Alive? && a.node == p && a.incarnation == 1 && p in claimed && 1 <= claimed[p]
    ensures var r := OnAlive(View(p, map[], 1, false), a, true, true, now);
      SelfHonest(r.view, p, claimed) && TableHonest(r.view, claimed) && NetHonest((set m | m in r.out), claimed)
  {
    var r := OnAlive(View(p, map[], 1, false), a, true, true, now);
    assert r.view.table[p].incarnation == 1 && r.out == [a] && forall n | n in r.view.table :: n == p;
  }

  /** Before anyone is there, nothing has been said. */
  lemma EmptyIsHonest()
    ensures Honest(Cluster(map[], map[], {}, {}))
  {
  }

  /** Clusters that follow each other. */
  ghost predicate IsHistory(cs: seq<Cluster>) {
    cs != [] && forall i | 0 < i < |cs| :: Next(cs[i - 1], cs[i])
  }

  ghost predicate Next(c: Cluster, d: Cluster) {
    || (exists p, s, now :: MemberSteps(c, p, s, now, d))
    || (exists q, n :: MemberShares(c, q, n, d))
    || (exists p, a, now :: MemberComesUp(c, p, a, now, d))
  }

  lemma NextHonest(c: Cluster, d: Cluster)
    requires Honest(c) && Next(c, d)
    ensures Honest(d)
  {
    hide Honest, MemberSteps, MemberShares, MemberComesUp;
    if p, s, now :| MemberSteps(c, p, s, now, d) {
      StaysHonest(c, p, s, now, d);
    } else if q, n :| MemberShares(c, q, n, d) {
      SharingStaysHonest(c, q, n, d);
    } else {
      var p, a, now :| MemberComesUp(c, p, a, now, d);
      ComingUpStaysHonest(c, p, a, now, d);
    }
  }

  /** Whatever is delivered, in whatever order, late or twice. */
  lemma {:induction false} HistoryHonest(cs: seq<Cluster>, i: nat)
    requires IsHistory(cs) && Honest(cs[0]) && i < |cs|
    ensures Honest(cs[i])
  {
    hide Honest, Next;
    if i > 0 {
      HistoryHonest(cs, i - 1);
      NextHonest(cs[i - 1], cs[i]);
    }
  }

  /** The member counts at least as far as anything said of it. */
  ghost predicate CaughtUp(c: Cluster, p: string) {
    p in c.members && p in c.claimed && c.claimed[p] <= c.members[p].incarnation
  }

  /** So it is when it comes up for the first time, and so it stays until it comes up again. */
  lemma StaysCaughtUp(c: Cluster, p: string, d: Cluster)
    requires Honest(c) && Next(c, d)
    requires !(exists a, now :: MemberComesUp(c, p, a, now, d))
    requires CaughtUp(c, p)
    ensures CaughtUp(d, p)
  {
    if q, s, now :| MemberSteps(c, q, s, now, d) {
      hide Honest, Do, Possible, Topic, Own, Sourced;
      if q == p {
        LocalIs(c, p);
        TopicHonest(c, p, s);
        CountsOn(c.members[p], s, c.claimed[p], now);
      }
    } else if q, n :| MemberShares(c, q, n, d) {
    } else {
      var q, a, now :| MemberComesUp(c, q, a, now, d);
      assert q != p;
    }
  }

  lemma LocalIs(c: Cluster, p: string)
    requires Honest(c) && p in c.members
    ensures c.members[p].local == p && Own(c.members[p]) <= Claimed(c, p)
  {
  }

  /** It counts on from at least `most`. */
  predicate Ahead(r: View, most: nat) {
    most <= r.incarnation && Own(r) <= r.incarnation
  }

  lemma AliveCountsOn(v: View, a: Message, bootstrap: bool, admitted: bool, most: nat, now: nat)
    requires a.Alive? && Own(v) <= most <= v.incarnation && (a.node == v.local && bootstrap ==> a.incarnation <= v.incarnation)
    ensures Ahead(OnAlive(v, a, bootstrap, admitted, now).view, most)
  {
  }

  lemma ClaimCountsOn(v: View, m: Message, most: nat, now: nat)
    requires Own(v) <= most <= v.incarnation && (m.node == v.local ==> m.incarnation <= most)
    ensures m.Suspect? ==> Ahead(OnSuspect(v, m, now).view, most)
    ensures m.Dead? ==> Ahead(OnDead(v, m, now).view, most)
  {
  }

  lemma QuietCountsOn(v: View, most: nat)
    requires Own(v) <= most <= v.incarnation
    ensures Ahead(v, most) && Ahead(Reaped(v), most)
    ensures Ahead(v.(incarnation := v.incarnation + 1), most) && Ahead(v.(leave := true), most)
  {
  }

  lemma CountsOn(v: View, s: Step, most: nat, now: nat)
    requires Possible(v, s) && Own(v) <= most <= v.incarnation
    requires Topic(v, s).0 == v.local && !s.Announce? ==> Topic(v, s).1 <= most
    ensures Ahead(Do(v, s, now).view, most)
  {
    hide Ahead, OnAlive, OnSuspect, OnDead, Reaped, Own;
    QuietCountsOn(v, most);
    match s
    case HearAlive(a, admitted) => AliveCountsOn(v, a, false, admitted, most, now);
    case HearSuspect(m) => ClaimCountsOn(v, m, most, now);
    case HearDead(m) => ClaimCountsOn(v, m, most, now);
    case Exchange(r, admits) =>
      AliveCountsOn(v, Alive(r.incarnation, r.name, r.address, r.meta, r.vsn), false, admits, most, now);
      ClaimCountsOn(v, Suspect(r.incarnation, r.name, v.local), most, now);
    case Timeout(n, _) =>
      if n in v.table {
        ClaimCountsOn(v, Dead(v.table[n].incarnation, n, v.local), most, now);
      }
    case Announce(m, lets) => AliveCountsOn(v, m, true, lets, most, now);
    case _ =>
  }

  lemma FirstLifeIsCaughtUp(c: Cluster, p: string, a: Message, now: nat, d: Cluster)
    requires p !in c.claimed && MemberComesUp(c, p, a, now, d)
    ensures CaughtUp(d, p)
  {
  }

  /** A claim that a member in its first life must answer is under its current incarnation, and the search
      for a higher one ends with the next number; the loop is there for members that came up again. */
  lemma AnswerIsNext(c: Cluster, p: string, m: Message)
    requires Honest(c) && p in c.members && m in c.net && IsClaim(c.members[p], m)
    ensures Own(c.members[p]) <= m.incarnation <= c.claimed[p]
    ensures CaughtUp(c, p) ==> Above(c.members[p].incarnation, m.incarnation) == c.members[p].incarnation + 1
    ensures Above(c.members[p].incarnation, m.incarnation) <= Max(c.claimed[p], c.members[p].incarnation) + 1
  {
  }

  /** Once a member has answered, no claim up to the one answered counts against it any more; and none sent
      before counts at all if it was caught up, or the claim was the highest. */
  lemma OldClaimsAreVoid(c: Cluster, p: string, m: Message, now: nat)
    requires Honest(c) && p in c.members && m in c.net && IsClaim(c.members[p], m)
    requires !c.members[p].leave
    ensures forall k | k in c.net && IsClaim(Hear(c.members[p], m, now).view, k) :: m.incarnation < k.incarnation
    ensures CaughtUp(c, p) || m.incarnation == c.claimed[p] ==>
              forall k | k in c.net :: !IsClaim(Hear(c.members[p], m, now).view, k)
  {
    var v := c.members[p];
    AnswerIsNext(c, p, m);
    assert Hear(v, m, now).view.table[p].incarnation == Above(v.incarnation, m.incarnation);
  }
}
