/** What a member believes about the others, and how claims about them change it. */
module Swim {
  import opened Bytes

  const MAX_UINT32 := 0xFFFF_FFFF

  datatype Status = StateAlive | StateSuspect | StateDead

  datatype Address = Address(ip: seq<byte>, port: nat)

  /** `vsn`: minimum, maximum and current version of the protocol, then of the delegate. */
  datatype Entry = Entry(address: Address, meta: seq<byte>, vsn: seq<byte>, incarnation: nat, status: Status, changed: nat)

  datatype Message =
    | Alive(incarnation: nat, node: string, address: Address, meta: seq<byte>, vsn: seq<byte>)
    | Suspect(incarnation: nat, node: string, from: string)
    | Dead(incarnation: nat, node: string, from: string)

  datatype View = View(local: string, table: map<string, Entry>, incarnation: nat, leave: bool)

  /** The new view and what is queued for broadcast. */
  datatype Outcome = Outcome(view: View, out: seq<Message>)

  const NO_VERSIONS: seq<byte> := [0, 0, 0, 0, 0, 0]

  /** A node heard of for the first time, before the claim is looked at. */
  function Newcomer(a: Message): Entry
    requires a.Alive?
  {
    Entry(a.address, a.meta, NO_VERSIONS, 0, StateDead, 0)
  }

  /** The next incarnation above the counter that is above the claim. */
  function Above(counter: nat, claimed: nat): nat {
    if claimed > counter then claimed + 1 else counter + 1
  }

  function Refutation(name: string, e: Entry, incarnation: nat): Message {
    Alive(incarnation, name, e.address, e.meta, e.vsn)
  }

  function Refute(v: View, claimed: nat): Outcome
    requires v.local in v.table
  {
    var e := v.table[v.local];
    var inc := Above(v.incarnation, claimed);
    Outcome(v.(incarnation := inc, table := v.table[v.local := e.(incarnation := inc)]), [Refutation(v.local, e, inc)])
  }

  /** The node of the message is in the table, as a newcomer if need be. */
  function Met(v: View, a: Message): View
    requires a.Alive?
  {
    if a.node in v.table then v else v.(table := v.table[a.node := Newcomer(a)])
  }

  /** What believing the message makes of an entry. */
  function Revived(e: Entry, a: Message, now: nat): Entry
    requires a.Alive?
  {
    e.(vsn := if a.vsn != [] then a.vsn else e.vsn, incarnation := a.incarnation, meta := a.meta,
       status := StateAlive, changed := if e.status != StateAlive then now else e.changed)
  }

  /** `bootstrap`: the node itself says so. */
  function Judge(v: View, a: Message, bootstrap: bool, now: nat): Outcome
    requires a.Alive? && a.node in v.table
  {
    var e := v.table[a.node];
    if e.address != a.address then Outcome(v, [])
    else if a.incarnation < e.incarnation || (a.incarnation == e.incarnation && a.node != v.local) then Outcome(v, [])
    else if !bootstrap && a.node == v.local then
      if a.incarnation == e.incarnation && a.meta == e.meta && a.vsn == e.vsn then Outcome(v, [])
      else Refute(v, a.incarnation)
    else Outcome(v.(table := v.table[a.node := Revived(e, a, now)]), [a])
  }

  /** `admitted`: no delegate filters the message out. */
  function OnAlive(v: View, a: Message, bootstrap: bool, admitted: bool, now: nat): Outcome
    requires a.Alive?
  {
    if (v.leave && a.node == v.local) || !admitted then Outcome(v, []) else Judge(Met(v, a), a, bootstrap, now)
  }

  function OnSuspect(v: View, s: Message, now: nat): Outcome
    requires s.Suspect?
  {
    if s.node !in v.table || s.incarnation < v.table[s.node].incarnation || v.table[s.node].status != StateAlive then Outcome(v, [])
    else if s.node == v.local then Refute(v, s.incarnation)
    else
      var e := v.table[s.node].(incarnation := s.incarnation, status := StateSuspect, changed := now);
      Outcome(v.(table := v.table[s.node := e]), [s])
  }

  function OnDead(v: View, d: Message, now: nat): Outcome
    requires d.Dead?
  {
    if d.node !in v.table || d.incarnation < v.table[d.node].incarnation || v.table[d.node].status == StateDead then Outcome(v, [])
    else if d.node == v.local && !v.leave then Refute(v, d.incarnation)
    else
      var e := v.table[d.node].(incarnation := d.incarnation, status := StateDead, changed := now);
      Outcome(v.(table := v.table[d.node := e]), [d])
  }

  /** The timer set when a node became suspect at time `changed`. */
  function OnTimeout(v: View, node: string, changed: nat, now: nat): Outcome {
    if node in v.table && v.table[node].status == StateSuspect && v.table[node].changed == changed then
      OnDead(v, Dead(v.table[node].incarnation, node, v.local), now)
    else Outcome(v, [])
  }

  /** One line of the state a peer sends in an exchange: its deaths are taken for suspicions. */
  datatype Remote = Remote(name: string, status: Status, incarnation: nat, address: Address, meta: seq<byte>, vsn: seq<byte>)

  function OnRemote(v: View, r: Remote, admitted: bool, now: nat): Outcome {
    match r.status
    case StateAlive => OnAlive(v, Alive(r.incarnation, r.name, r.address, r.meta, r.vsn), false, admitted, now)
    case _ => OnSuspect(v, Suspect(r.incarnation, r.name, v.local), now)
  }

  function OnRemotes(v: View, rs: seq<Remote>, admitted: seq<bool>, now: nat): Outcome
    requires |admitted| == |rs|
  {
    if rs == [] then Outcome(v, [])
    else
      var last := |rs| - 1;
      var before := OnRemotes(v, rs[..last], admitted[..last], now);
      var o := OnRemote(before.view, rs[last], admitted[last], now);
      Outcome(o.view, before.out + o.out)
  }

  lemma RemotesNone(v: View, rs: seq<Remote>, admitted: seq<bool>, now: nat)
    ensures OnRemotes(v, rs[..0], admitted[..0], now) == Outcome(v, [])
  {
  }

  lemma RemotesMore(v: View, rs: seq<Remote>, admitted: seq<bool>, i: nat, now: nat)
    requires |admitted| == |rs| && i < |rs|
    ensures var before := OnRemotes(v, rs[..i], admitted[..i], now);
      var o := OnRemote(before.view, rs[i], admitted[i], now);
      OnRemotes(v, rs[..i + 1], admitted[..i + 1], now) == Outcome(o.view, before.out + o.out)
  {
    assert rs[..i + 1][..i] == rs[..i] && admitted[..i + 1][..i] == admitted[..i];
  }

  lemma RemoteCounts(v: View, r: Remote, admitted: bool, now: nat)
    ensures OnRemote(v, r, admitted, now).view.incarnation <= (if v.incarnation < r.incarnation then r.incarnation else v.incarnation) + 1
  {
  }

  function Living(table: map<string, Entry>): map<string, Entry> {
    map n | n in table && table[n].status != StateDead :: table[n]
  }

  /** Nodes known to be dead are forgotten. */
  function Reaped(v: View): View {
    v.(table := Living(v.table))
  }

  // ------------------------------------------------------------------ runs

  datatype Step =
    | HearAlive(a: Message, admitted: bool)
    | HearSuspect(s: Message)
    | HearDead(d: Message)
    | Exchange(r: Remote, admits: bool)
    | Timeout(node: string, changed: nat)
    | Count
    | Announce(mine: Message, lets: bool)
    | BeginLeave
    | Reap

  /** `Announce` is the node's own word on itself, under an incarnation counted before. */
  predicate Possible(v: View, s: Step) {
    match s
    case HearAlive(a, _) => a.Alive?
    case HearSuspect(m) => m.Suspect?
    case HearDead(m) => m.Dead?
    case Announce(m, _) => m.Alive? && m.node == v.local && m.incarnation <= v.incarnation
    case _ => true
  }

  function Do(v: View, s: Step, now: nat): Outcome
    requires Possible(v, s)
  {
    match s
    case HearAlive(a, admitted) => OnAlive(v, a, false, admitted, now)
    case HearSuspect(m) => OnSuspect(v, m, now)
    case HearDead(m) => OnDead(v, m, now)
    case Exchange(r, admits) => OnRemote(v, r, admits, now)
    case Timeout(node, changed) => OnTimeout(v, node, changed, now)
    case Count => Outcome(v.(incarnation := v.incarnation + 1), [])
    case Announce(m, lets) => OnAlive(v, m, true, lets, now)
    case BeginLeave => Outcome(v.(leave := true), [])
    case Reap => Outcome(Reaped(v), [])
  }

  /** Views that follow each other; step `i` happens at time `i`. */
  ghost predicate IsRun(vs: seq<View>, steps: seq<Step>) {
    && |vs| == |steps| + 1
    && forall i | 0 <= i < |steps| :: Possible(vs[i], steps[i]) && vs[i + 1] == Do(vs[i], steps[i], i).view
  }

  // ------------------------------------------------- claims only move forward

  function Severity(s: Status): nat {
    match s
    case StateAlive => 0
    case StateSuspect => 1
    case StateDead => 2
  }

  /** Incarnation first, then alive before suspect before dead. */
  predicate Lower(a: Entry, b: Entry) {
    a.incarnation < b.incarnation || (a.incarnation == b.incarnation && Severity(a.status) < Severity(b.status))
  }

  predicate NotHigher(a: Entry, b: Entry) {
    Lower(a, b) || (a.incarnation == b.incarnation && a.status == b.status)
  }

  /** What an outcome makes of a node that is not forgotten. */
  predicate Raised(v: View, r: Outcome, n: string) {
    && n in v.table && n in r.view.table && r.view.local == v.local
    && if r.out != [] && r.out[0].node == n then Lower(v.table[n], r.view.table[n])
       else r.view.table[n] == v.table[n]
  }

  lemma AliveRaises(v: View, a: Message, bootstrap: bool, admitted: bool, n: string, now: nat)
    requires a.Alive? && n != v.local && n in v.table
    ensures Raised(v, OnAlive(v, a, bootstrap, admitted, now), n)
  {
  }

  lemma SuspectRaises(v: View, s: Message, n: string, now: nat)
    requires s.Suspect? && n != v.local && n in v.table
    ensures Raised(v, OnSuspect(v, s, now), n)
  {
  }

  lemma DeadRaises(v: View, d: Message, n: string, now: nat)
    requires d.Dead? && n != v.local && n in v.table
    ensures Raised(v, OnDead(v, d, now), n)
  {
  }

  lemma QuietRaises(v: View, n: string)
    requires n in v.table
    ensures Raised(v, Outcome(v, []), n) && Raised(v, Outcome(v.(incarnation := v.incarnation + 1), []), n)
    ensures Raised(v, Outcome(v.(leave := true), []), n)
    ensures Reaped(v).local == v.local
    ensures if n in Reaped(v).table then Raised(v, Outcome(Reaped(v), []), n) else v.table[n].status == StateDead
  {
  }

  /** A remote node's standing never falls; it rises exactly when a claim about the node is
      passed on, and otherwise nothing about the node changes. */
  lemma StepRaises(v: View, s: Step, n: string, now: nat)
    requires Possible(v, s) && n != v.local && n in v.table
    ensures var r := Do(v, s, now);
      if n in r.view.table then
        if r.out != [] && r.out[0].node == n then Lower(v.table[n], r.view.table[n])
        else r.view.table[n] == v.table[n]
      else s.Reap? && v.table[n].status == StateDead
  {
    hide OnAlive, OnSuspect, OnDead, Reaped, Lower;
    match s
    case HearAlive(a, admitted) => AliveRaises(v, a, false, admitted, n, now);
    case HearSuspect(m) => SuspectRaises(v, m, n, now);
    case HearDead(m) => DeadRaises(v, m, n, now);
    case Exchange(r, admits) =>
      AliveRaises(v, Alive(r.incarnation, r.name, r.address, r.meta, r.vsn), false, admits, n, now);
      SuspectRaises(v, Suspect(r.incarnation, r.name, v.local), n, now);
    case Timeout(node, _) =>
      QuietRaises(v, n);
      if node in v.table {
        DeadRaises(v, Dead(v.table[node].incarnation, node, v.local), n, now);
      }
    case Announce(m, lets) => AliveRaises(v, m, true, lets, n, now);
    case _ => QuietRaises(v, n);
  }

  lemma MessagesKeepLocal(v: View, m: Message, bootstrap: bool, admitted: bool, now: nat)
    ensures m.Alive? ==> OnAlive(v, m, bootstrap, admitted, now).view.local == v.local
    ensures m.Suspect? ==> OnSuspect(v, m, now).view.local == v.local
    ensures m.Dead? ==> OnDead(v, m, now).view.local == v.local
  {
  }

  lemma LocalStays(v: View, s: Step, now: nat)
    requires Possible(v, s)
    ensures Do(v, s, now).view.local == v.local
  {
    hide OnAlive, OnSuspect, OnDead;
    match s
    case HearAlive(a, admitted) => MessagesKeepLocal(v, a, false, admitted, now);
    case HearSuspect(m) => MessagesKeepLocal(v, m, false, false, now);
    case HearDead(m) => MessagesKeepLocal(v, m, false, false, now);
    case Exchange(r, admits) =>
      MessagesKeepLocal(v, Alive(r.incarnation, r.name, r.address, r.meta, r.vsn), false, admits, now);
      MessagesKeepLocal(v, Suspect(r.incarnation, r.name, v.local), false, false, now);
    case Timeout(node, _) =>
      if node in v.table {
        MessagesKeepLocal(v, Dead(v.table[node].incarnation, node, v.local), false, false, now);
      }
    case Announce(m, lets) => MessagesKeepLocal(v, m, true, lets, now);
    case _ =>
  }

  /** Over a whole run, as long as the node stays in the table. */
  lemma {:induction false} RunRaises(vs: seq<View>, steps: seq<Step>, n: string, i: nat, j: nat)
    requires IsRun(vs, steps) && i <= j < |vs|
    requires n != vs[i].local && forall k | i <= k <= j :: n in vs[k].table
    ensures n in vs[i].table && n in vs[j].table && NotHigher(vs[i].table[n], vs[j].table[n]) && vs[j].local == vs[i].local
    decreases j - i
  {
    hide Do, Possible;
    if i < j {
      RunRaises(vs, steps, n, i, j - 1);
      assert vs[j] == Do(vs[j - 1], steps[j - 1], j - 1).view;
      StepRaises(vs[j - 1], steps[j - 1], n, j - 1);
      LocalStays(vs[j - 1], steps[j - 1], j - 1);
    }
  }

  // ------------------------------------------------------ the node itself

  /** Until it leaves a node holds itself alive; leaving, it may hold itself dead, never suspect. */
  ghost predicate KnowsItself(v: View) {
    && (v.local in v.table ==> v.table[v.local].status != StateSuspect)
    && (!v.leave ==> v.local in v.table && v.table[v.local].status == StateAlive)
  }

  /** It has left: dead in its own eyes, or forgotten as such. */
  ghost predicate HasLeft(v: View) {
    v.leave && (v.local !in v.table || v.table[v.local].status == StateDead)
  }

  /** What an outcome makes of a node's knowledge of itself. */
  ghost predicate Knowing(v: View, r: View) {
    KnowsItself(r) && r.local == v.local && r.leave == v.leave && (HasLeft(v) ==> HasLeft(r))
  }

  lemma AliveKnows(v: View, a: Message, bootstrap: bool, admitted: bool, now: nat)
    requires a.Alive? && KnowsItself(v)
    ensures Knowing(v, OnAlive(v, a, bootstrap, admitted, now).view)
  {
  }

  lemma ClaimKnows(v: View, m: Message, now: nat)
    requires KnowsItself(v)
    ensures m.Suspect? ==> Knowing(v, OnSuspect(v, m, now).view)
    ensures m.Dead? ==> Knowing(v, OnDead(v, m, now).view)
  {
  }

  lemma QuietKnows(v: View)
    requires KnowsItself(v)
    ensures Knowing(v, v) && Knowing(v, v.(incarnation := v.incarnation + 1)) && Knowing(v, Reaped(v))
    ensures KnowsItself(v.(leave := true)) && (HasLeft(v) ==> HasLeft(v.(leave := true)))
  {
  }

  lemma StepKnows(v: View, s: Step, now: nat)
    requires Possible(v, s) && KnowsItself(v)
    ensures var r := Do(v, s, now).view;
      && KnowsItself(r) && r.local == v.local && (v.leave ==> r.leave) && (HasLeft(v) ==> HasLeft(r))
      && (r.leave && !v.leave ==> s.BeginLeave?)
  {
    hide OnAlive, OnSuspect, OnDead, Reaped, KnowsItself, HasLeft;
    QuietKnows(v);
    match s
    case HearAlive(a, admitted) => AliveKnows(v, a, false, admitted, now);
    case HearSuspect(m) => ClaimKnows(v, m, now);
    case HearDead(m) => ClaimKnows(v, m, now);
    case Exchange(r, admits) =>
      AliveKnows(v, Alive(r.incarnation, r.name, r.address, r.meta, r.vsn), false, admits, now);
      ClaimKnows(v, Suspect(r.incarnation, r.name, v.local), now);
    case Timeout(node, _) =>
      if node in v.table {
        ClaimKnows(v, Dead(v.table[node].incarnation, node, v.local), now);
      }
    case Announce(m, lets) => AliveKnows(v, m, true, lets, now);
    case _ =>
  }

  /** In every reachable state: never suspect, dead only after leaving, and then for good. */
  lemma {:induction false} RunKnows(vs: seq<View>, steps: seq<Step>, i: nat, j: nat)
    requires IsRun(vs, steps) && i <= j < |vs| && KnowsItself(vs[i])
    ensures KnowsItself(vs[j]) && (HasLeft(vs[i]) ==> HasLeft(vs[j]))
    ensures vs[j].leave ==> vs[i].leave || exists k :: i <= k < j && steps[k].BeginLeave?
    decreases j - i
  {
    hide Do, Possible;
    if i < j {
      RunKnows(vs, steps, i, j - 1);
      assert vs[j] == Do(vs[j - 1], steps[j - 1], j - 1).view;
      StepKnows(vs[j - 1], steps[j - 1], j - 1);
    }
  }

  /** A node that comes up and says so: the starting point of the invariant. */
  lemma ComesUp(name: string, counter: nat, address: Address, meta: seq<byte>, vsn: seq<byte>, now: nat)
    requires counter > 0
    ensures var a := Alive(counter, name, address, meta, vsn);
      var r := OnAlive(View(name, map[], counter, false), a, true, true, now);
      KnowsItself(r.view) && r.out == [a]
  {
  }

  /** Incarnations about the node itself that it has not reached yet, or that it has, count. */
  predicate IsClaim(v: View, c: Message) {
    (c.Suspect? || c.Dead?) && c.node == v.local && v.local in v.table && c.incarnation >= v.table[v.local].incarnation
  }

  function Hear(v: View, c: Message, now: nat): Outcome {
    match c
    case Alive(_, _, _, _, _) => OnAlive(v, c, false, true, now)
    case Suspect(_, _, _) => OnSuspect(v, c, now)
    case Dead(_, _, _) => OnDead(v, c, now)
  }

  /** Every claim against a node that has not left is answered, and every peer that holds the
      claim, or knows less, and knows the node under the same address, believes the answer. */
  lemma ClaimIsRefuted(v: View, c: Message, peer: View, now: nat, then_: nat)
    requires KnowsItself(v) && !v.leave && IsClaim(v, c)
    requires peer.local != v.local && v.local in peer.table
    requires peer.table[v.local].incarnation <= c.incarnation && peer.table[v.local].address == v.table[v.local].address
    ensures var r := Hear(v, c, now);
      && |r.out| == 1 && r.out[0].Alive? && r.out[0].node == v.local && r.out[0].incarnation > c.incarnation
      && r.view.table[v.local] == v.table[v.local].(incarnation := r.out[0].incarnation)
      && !IsClaim(r.view, c)
      && var p := Hear(peer, r.out[0], then_);
         && p.view.table[v.local].status == StateAlive && p.view.table[v.local].incarnation == r.out[0].incarnation
         && p.view.table[v.local].meta == v.table[v.local].meta && p.out == r.out
  {
  }

  lemma StaleNow(v: View, c: Message, now: nat)
    requires c.node != v.local && c.node in v.table && c.incarnation < v.table[c.node].incarnation
    ensures Hear(v, c, now) == Outcome(v, [])
  {
  }

  /** A word about another node that is older than what was known of it at some time changes nothing
      and is not passed on at any later time of a run, as long as the node is not forgotten. */
  lemma StaleForEver(vs: seq<View>, steps: seq<Step>, c: Message, i: nat, j: nat, now: nat)
    requires IsRun(vs, steps) && i <= j < |vs| && c.node != vs[i].local && forall k | i <= k <= j :: c.node in vs[k].table
    requires c.incarnation < vs[i].table[c.node].incarnation
    ensures Hear(vs[j], c, now) == Outcome(vs[j], [])
  {
    hide IsRun, Hear;
    RunRaises(vs, steps, c.node, i, j);
    StaleNow(vs[j], c, now);
  }

  // ------------------------------------------------------ failure detection

  predicate Holds(v: View, n: string, status: Status) {
    n in v.table && v.table[n].status == status
  }

  /** A word of that age, from that address, is newer than what is held of the node. */
  predicate Newer(v: View, n: string, incarnation: nat, address: Address) {
    if n in v.table then incarnation > v.table[n].incarnation && address == v.table[n].address else incarnation > 0
  }

  predicate NotOlder(v: View, n: string, incarnation: nat) {
    n in v.table && incarnation >= v.table[n].incarnation
  }

  /** The step brings a newer word that the node is alive, and no delegate filters it out. */
  predicate Vouches(v: View, s: Step, n: string)
    requires Possible(v, s)
  {
    match s
    case HearAlive(a, admitted) => admitted && a.node == n && Newer(v, n, a.incarnation, a.address)
    case Exchange(r, admits) => admits && r.status == StateAlive && r.name == n && Newer(v, n, r.incarnation, r.address)
    case _ => false
  }

  /** The step brings a suspicion of the node that is not older than what is held of it. */
  predicate Accuses(v: View, s: Step, n: string) {
    match s
    case HearSuspect(m) => m.node == n && NotOlder(v, n, m.incarnation)
    case Exchange(r, _) => r.status != StateAlive && r.name == n && NotOlder(v, n, r.incarnation)
    case _ => false
  }

  function Claimed(s: Step): nat {
    match s
    case HearSuspect(m) => m.incarnation
    case Exchange(r, _) => r.incarnation
    case _ => 0
  }

  /** The step brings the node's death, or fires the timer set when it became suspect. */
  predicate Buries(v: View, s: Step, n: string) {
    match s
    case HearDead(m) => m.node == n && NotOlder(v, n, m.incarnation)
    case Timeout(node, changed) => node == n && Holds(v, n, StateSuspect) && v.table[n].changed == changed
    case _ => false
  }

  lemma AliveStands(v: View, a: Message, bootstrap: bool, admitted: bool, n: string, now: nat)
    requires a.Alive? && n != v.local
    ensures var r := OnAlive(v, a, bootstrap, admitted, now).view;
      var newer := admitted && a.node == n && Newer(v, n, a.incarnation, a.address);
      && (Holds(r, n, StateAlive) <==> newer || Holds(v, n, StateAlive))
      && (Holds(r, n, StateSuspect) <==> Holds(v, n, StateSuspect) && !newer)
      && (Holds(v, n, StateSuspect) && Holds(r, n, StateSuspect) ==> r.table[n] == v.table[n])
  {
  }

  lemma SuspectStands(v: View, s: Message, n: string, now: nat)
    requires s.Suspect? && n != v.local
    ensures var r := OnSuspect(v, s, now).view;
      var counts := s.node == n && NotOlder(v, n, s.incarnation);
      && (Holds(r, n, StateAlive) <==> Holds(v, n, StateAlive) && !counts)
      && (Holds(r, n, StateSuspect) <==> Holds(v, n, StateSuspect) || (Holds(v, n, StateAlive) && counts))
      && (Holds(v, n, StateSuspect) && Holds(r, n, StateSuspect) ==> r.table[n] == v.table[n])
  {
  }

  lemma DeadStands(v: View, d: Message, n: string, now: nat)
    requires d.Dead? && n != v.local
    ensures var r := OnDead(v, d, now).view;
      var counts := d.node == n && NotOlder(v, n, d.incarnation);
      && (Holds(r, n, StateAlive) <==> Holds(v, n, StateAlive) && !counts)
      && (Holds(r, n, StateSuspect) <==> Holds(v, n, StateSuspect) && !counts)
      && (Holds(v, n, StateSuspect) && Holds(r, n, StateSuspect) ==> r.table[n] == v.table[n])
  {
  }

  lemma QuietStands(v: View, n: string)
    ensures Holds(Reaped(v), n, StateAlive) <==> Holds(v, n, StateAlive)
    ensures Holds(Reaped(v), n, StateSuspect) <==> Holds(v, n, StateSuspect)
    ensures Holds(v, n, StateSuspect) ==> Reaped(v).table[n] == v.table[n]
  {
  }

  /** How a remote node stands after a step, for every step and every standing before it. */
  lemma StandingExactly(v: View, s: Step, n: string, now: nat)
    requires Possible(v, s) && n != v.local
    ensures var r := Do(v, s, now).view;
      && (Holds(r, n, StateAlive) <==> Vouches(v, s, n) || (Holds(v, n, StateAlive) && !Accuses(v, s, n) && !Buries(v, s, n)))
      && (Holds(r, n, StateSuspect) <==>
           (Holds(v, n, StateAlive) && Accuses(v, s, n)) || (Holds(v, n, StateSuspect) && !Vouches(v, s, n) && !Buries(v, s, n)))
      && (Holds(v, n, StateSuspect) && Holds(r, n, StateSuspect) ==> r.table[n] == v.table[n])
  {
    hide OnAlive, OnSuspect, OnDead, Reaped, Newer;
    match s
    case HearAlive(a, admitted) => AliveStands(v, a, false, admitted, n, now);
    case HearSuspect(m) => SuspectStands(v, m, n, now);
    case HearDead(m) => DeadStands(v, m, n, now);
    case Exchange(r, admits) =>
      AliveStands(v, Alive(r.incarnation, r.name, r.address, r.meta, r.vsn), false, admits, n, now);
      SuspectStands(v, Suspect(r.incarnation, r.name, v.local), n, now);
    case Timeout(node, _) =>
      if node in v.table {
        DeadStands(v, Dead(v.table[node].incarnation, node, v.local), n, now);
      }
    case Announce(m, lets) => AliveStands(v, m, true, lets, n, now);
    case _ => QuietStands(v, n);
  }

  /** A node held alive becomes suspect, under the incarnation of the suspicion and as of now, and the
      suspicion is passed on, if and only if it is not older than the incarnation held. */
  lemma SuspicionCounts(v: View, s: Step, n: string, now: nat)
    requires n != v.local && Holds(v, n, StateAlive) && Possible(v, s)
    ensures var r := Do(v, s, now);
      && (Accuses(v, s, n) <==> Holds(r.view, n, StateSuspect))
      && (Accuses(v, s, n) ==> r.view.table[n] == v.table[n].(incarnation := Claimed(s), status := StateSuspect, changed := now))
      && (s.HearSuspect? && s.s.node == n ==> (Accuses(v, s, n) <==> r.out == [s.s]) && (!Accuses(v, s, n) ==> r == Outcome(v, [])))
  {
  }

  /** And a node not yet held dead becomes dead in the same way. */
  lemma DeathCounts(v: View, d: Message, n: string, now: nat)
    requires d.Dead? && d.node == n && n != v.local && n in v.table && v.table[n].status != StateDead
    ensures var r := OnDead(v, d, now);
      && (NotOlder(v, n, d.incarnation) <==> Holds(r.view, n, StateDead))
      && (if NotOlder(v, n, d.incarnation)
          then r.out == [d] && r.view.table[n] == v.table[n].(incarnation := d.incarnation, status := StateDead, changed := now)
          else r == Outcome(v, []))
  {
  }

  /** What a suspected node is until a newer word of it is heard: dead or forgotten, or suspect as it was. */
  predicate UnderSuspicion(v: View, n: string, incarnation: nat, since: nat) {
    n !in v.table || v.table[n].status == StateDead
      || (v.table[n].status == StateSuspect && v.table[n].incarnation == incarnation && v.table[n].changed == since)
  }

  lemma StaysSuspected(v: View, s: Step, n: string, incarnation: nat, since: nat, now: nat)
    requires Possible(v, s) && n != v.local && UnderSuspicion(v, n, incarnation, since) && !Vouches(v, s, n)
    ensures UnderSuspicion(Do(v, s, now).view, n, incarnation, since)
  {
    hide Vouches, Accuses, Buries, Do;
    StandingExactly(v, s, n, now);
  }

  lemma {:induction false} SuspectedUntil(vs: seq<View>, steps: seq<Step>, n: string, i: nat, j: nat)
    requires IsRun(vs, steps) && i < j < |vs| && n != vs[i].local && Holds(vs[i], n, StateAlive) && Accuses(vs[i], steps[i], n)
    requires forall k | i < k < j :: !Vouches(vs[k], steps[k], n)
    ensures vs[j].local == vs[i].local && UnderSuspicion(vs[j], n, Claimed(steps[i]), i)
    decreases j
  {
    hide Do, Possible, Vouches, Accuses, UnderSuspicion, Holds;
    assert vs[j] == Do(vs[j - 1], steps[j - 1], j - 1).view;
    LocalStays(vs[j - 1], steps[j - 1], j - 1);
    if j == i + 1 {
      BecomesSuspected(vs[i], steps[i], n, i);
    } else {
      SuspectedUntil(vs, steps, n, i, j - 1);
      StaysSuspected(vs[j - 1], steps[j - 1], n, Claimed(steps[i]), i, j - 1);
    }
  }

  lemma BecomesSuspected(v: View, s: Step, n: string, now: nat)
    requires n != v.local && Holds(v, n, StateAlive) && Possible(v, s) && Accuses(v, s, n)
    ensures UnderSuspicion(Do(v, s, now).view, n, Claimed(s), now)
  {
    SuspicionCounts(v, s, n, now);
  }

  /** Failure detection is complete: a node that was suspected while it was held alive, and of which no
      newer word is heard before the timer set then fires, is dead after that, or was forgotten as dead.
      If it was still suspect, its death is passed on under the incarnation suspected. */
  lemma SuspectDies(vs: seq<View>, steps: seq<Step>, n: string, i: nat, j: nat)
    requires IsRun(vs, steps) && i < j < |steps| && n != vs[i].local && Holds(vs[i], n, StateAlive) && Accuses(vs[i], steps[i], n)
    requires forall k | i < k < j :: !Vouches(vs[k], steps[k], n)
    requires steps[j] == Timeout(n, i)
    ensures n !in vs[j + 1].table || Holds(vs[j + 1], n, StateDead)
    ensures Holds(vs[j], n, StateSuspect) ==>
      Holds(vs[j + 1], n, StateDead) && Do(vs[j], steps[j], j).out == [Dead(Claimed(steps[i]), n, vs[i].local)]
  {
    hide Accuses, Vouches, Claimed;
    SuspectedUntil(vs, steps, n, i, j);
    assert vs[j + 1] == Do(vs[j], steps[j], j).view;
  }

  /** And a newer word before that keeps the node alive: the timer no longer fits. */
  lemma VouchedLives(v: View, s: Step, n: string, since: nat, now: nat)
    requires Possible(v, s) && n != v.local && Vouches(v, s, n)
    ensures var r := Do(v, s, now).view;
      Holds(r, n, StateAlive) && OnTimeout(r, n, since, now) == Outcome(r, [])
  {
  }

  // ----------------------------------------------------------------- leaving

  /** Leaving reads the incarnation, lets go of the lock, and hears of its own death under that
      incarnation.  The death is accepted exactly if no claim has been refuted in between. */
  lemma LeaveDies(v: View, d: Message, now: nat)
    requires KnowsItself(v) && v.leave && v.local in v.table && d.Dead? && d.node == v.local
    ensures HasLeft(OnDead(v, d, now).view) <==> v.table[v.local].incarnation <= d.incarnation || HasLeft(v)
  {
  }

  /** A suspicion heard in between keeps the node alive, and it goes on saying so. */
  lemma LeaveCanFail(v: View, s: Message, now: nat)
    requires KnowsItself(v) && !v.leave && s.Suspect? && IsClaim(v, s)
    ensures var d := Dead(v.table[v.local].incarnation, v.local, "");
      var between := OnSuspect(v.(leave := true), s, now);
      var after := OnDead(between.view, d, now);
      && |between.out| == 1 && between.out[0].Alive? && after == Outcome(between.view, [])
      && after.view.leave && after.view.table[v.local].status == StateAlive
  {
  }

  // ------------------------------------------------------------ convergence

  /** Two members that hear the same suspicion and the same death of a living node in different orders
      come to hold the same of it, unless the death is not stale but older than the suspicion: then the
      one holds the node suspect, the other dead. */
  lemma OrderMattersExactly(v: View, s: Message, d: Message, now: nat)
    requires s.Suspect? && d.Dead? && s.node == d.node && s.node != v.local
    requires s.node in v.table && v.table[s.node].status == StateAlive
    ensures var n := s.node;
            var e := v.table[n].incarnation;
            var one, other := OnDead(OnSuspect(v, s, now).view, d, now).view, OnSuspect(OnDead(v, d, now).view, s, now).view;
            && (one.table[n] == other.table[n] <==> !(e <= d.incarnation < s.incarnation))
            && (e <= d.incarnation < s.incarnation ==> one.table[n].status == StateSuspect && other.table[n].status == StateDead)
  {
  }

  /** A newer word of the node itself brings any two members to the same opinion. */
  lemma AliveAgrees(v: View, w: View, a: Message, now: nat, then_: nat)
    requires a.Alive? && a.node != v.local && a.node != w.local && a.vsn != []
    requires a.node in v.table && v.table[a.node].incarnation < a.incarnation && v.table[a.node].address == a.address
    requires a.node in w.table && w.table[a.node].incarnation < a.incarnation && w.table[a.node].address == a.address
    ensures var p, q := Hear(v, a, now).view.table[a.node], Hear(w, a, then_).view.table[a.node];
      p.(changed := 0) == q.(changed := 0) && p.status == StateAlive && p.incarnation == a.incarnation
  {
  }
}
