/** One member: its table of nodes, and the locked methods that change it. */
module Memberlist {
  import opened Bytes
  import opened Swim

  /** What is known of a node.  The address never changes. */
  class NodeState {
    const name: string
    const address: Address
    var meta: seq<byte>
    var vsn: seq<byte>
    var incarnation: nat
    var status: Status
    var changed: nat

    constructor (name: string, address: Address, meta: seq<byte>)
      ensures this.name == name && Value() == Entry(address, meta, NO_VERSIONS, 0, StateDead, 0)
    {
      this.name, this.address, this.meta := name, address, meta;
      vsn, incarnation, status, changed := NO_VERSIONS, 0, StateDead, 0;
    }

    function Value(): Entry
      reads this
    {
      Entry(address, meta, vsn, incarnation, status, changed)
    }

    /** Take over what an alive message says. */
    method Renew(a: Message, now: nat)
      requires a.Alive?
      modifies this
      ensures Value() == Revived(old(Value()), a, now)
    {
      if |a.vsn| > 0 {
        vsn := a.vsn;
      }
      incarnation := a.incarnation;
      meta := a.meta;
      if status != StateAlive {
        status := StateAlive;
        changed := now;
      }
    }
  }

  function Entries(nodeMap: map<string, NodeState>): map<string, Entry>
    reads nodeMap.Values
  {
    map n | n in nodeMap :: nodeMap[n].Value()
  }

  lemma EntriesMore(nodeMap: map<string, NodeState>, n: string, state: NodeState)
    ensures Entries(nodeMap[n := state]) == Entries(nodeMap)[n := state.Value()]
  {
  }

  /** One trip of the probe index through the list. */
  datatype Round = Round(nodes: seq<NodeState>, probed: seq<NodeState>, passed: seq<NodeState>,
                         died: set<NodeState>, joined: bool)

  /** If nobody joined, each node but this one that was never dead was probed exactly once; and no
      node was probed twice. */
  ghost predicate Fair(r: Round, name: string) {
    !r.joined ==>
      forall x | x in r.nodes ::
        && multiset(r.probed)[x] <= 1
        && (x.name != name && x !in r.died ==> multiset(r.probed)[x] == 1)
  }

  /** Nodes that may be passed over. */
  ghost predicate Excused(passed: seq<NodeState>, died: set<NodeState>, name: string) {
    forall x | x in passed :: x.name == name || x in died
  }

  ghost predicate Noted(nodes: seq<NodeState>, died: set<NodeState>)
    reads nodes
  {
    forall x | x in nodes && x.status == StateDead :: x in died
  }

  lemma NoneDead(nodes: seq<NodeState>)
    requires forall x | x in nodes :: x.status != StateDead
    ensures Noted(nodes, {})
  {
  }

  lemma NothingToShow(r: Round, name: string)
    requires r.joined
    ensures Fair(r, name)
  {
  }

  lemma RoundIsFair(r: Round, name: string)
    requires EachOnce(r.probed, r.passed, r.nodes) && Excused(r.passed, r.died, name)
    ensures Fair(r, name)
  {
    forall x | x in r.nodes && x.name != name && x !in r.died
      ensures multiset(r.passed)[x] == 0
    {
      assert x !in r.passed;
    }
  }

  function Picked(target: NodeState?): seq<NodeState> {
    if target == null then [] else [target]
  }

  class Memberlist {
    const name: string
    /** In the order of probing. */
    var nodes: seq<NodeState>
    var nodeMap: map<string, NodeState>
    var numNodes: nat
    var incarnation: nat
    var leave: bool
    var probeIndex: nat
    /** Messages queued for broadcast. */
    var outbox: seq<Message>

    // Since the last wrap of the probe index: nodes probed, nodes passed over, nodes that
    // have been dead for some time, and whether a node has joined.
    ghost var probed: seq<NodeState>
    ghost var passed: seq<NodeState>
    ghost var died: set<NodeState>
    ghost var joined: bool
    /** The round that ended with the last wrap, and how many have ended. */
    ghost var round: Round
    ghost var rounds: nat

    constructor (name: string)
      ensures Valid() && this.name == name && nodes == [] && nodeMap == map[] && outbox == []
      ensures View() == Swim.View(name, map[], 0, false) && probeIndex == 0
    {
      this.name, nodes, nodeMap, numNodes := name, [], map[], 0;
      incarnation, leave, probeIndex, outbox := 0, false, 0, [];
      probed, passed, died, joined := [], [], {}, false;
      round, rounds := Round([], [], [], {}, true), 0;
    }

    /** `nodes` lists exactly the entries of `nodeMap`, each once, and `numNodes` counts them.
        Only this node and nodes that have been dead are passed over. */
    ghost predicate Valid()
      reads this, nodes
    {
      && Listed(nodes, nodeMap)
      && numNodes == |nodes|
      && (!joined ==> Covered(probed, passed, nodes, probeIndex) && Excused(passed, died, name) && Noted(nodes, died))
      && Fair(round, name)
    }

    /** What the member believes. */
    ghost function View(): Swim.View
      requires Valid()
      reads this, nodes
    {
      Swim.View(name, Entries(nodeMap), incarnation, leave)
    }

    // ----------------------------------------------------- incarnations

    method NextIncarnation() returns (inc: nat)
      requires incarnation < MAX_UINT32
      modifies this`incarnation
      ensures inc == incarnation == old(incarnation) + 1
    {
      incarnation := (incarnation + 1) % 0x1_0000_0000;
      inc := incarnation;
    }

    /** Count until the claim is passed; with the largest number claimed this would not end. */
    method HigherThan(claimed: nat) returns (inc: nat)
      requires claimed < MAX_UINT32 && incarnation < MAX_UINT32
      modifies this`incarnation
      ensures inc == incarnation == Above(old(incarnation), claimed)
    {
      inc := NextIncarnation();
      while claimed >= inc
        invariant inc == incarnation && old(incarnation) < inc && (inc <= claimed + 1 || inc == old(incarnation) + 1)
        decreases claimed - inc
      {
        inc := NextIncarnation();
      }
    }

    /** Refute a claim about this node. */
    method RefuteClaim(claimed: nat)
      requires Valid() && name in nodeMap && claimed < MAX_UINT32 && incarnation < MAX_UINT32
      modifies this`incarnation, this`outbox, nodeMap[name]
      ensures Valid()
      ensures var r := Refute(old(View()), claimed); View() == r.view && outbox == old(outbox) + r.out
    {
      hide Fair, Excused;
      var state := nodeMap[name];
      var inc := HigherThan(claimed);
      state.incarnation := inc;
      outbox := outbox + [Refutation(state.name, state.Value(), inc)];
      assert View().table == old(View()).table[name := state.Value()];
    }

    // --------------------------------------------------------- messages

    /** A place for a node never seen before: at the end, then exchanged with a random one. */
    method AddNode(a: Message) returns (state: NodeState)
      requires Valid() && a.Alive? && a.node !in nodeMap
      modifies this`nodes, this`nodeMap, this`numNodes, this`joined
      ensures Valid() && fresh(state) && nodeMap == old(nodeMap)[a.node := state]
      ensures View() == old(View()).(table := old(View()).table[a.node := Newcomer(a)])
      ensures forall x | x in nodes :: x in old(nodes) || x == state
      ensures exists k :: 0 <= k <= |old(nodes)| && nodes == Swapped(old(nodes) + [state], k, |old(nodes)|)
    {
      hide Noted, Fair, Excused, Covered, Listed, Swapped, Entries;
      state := new NodeState(a.node, a.address, a.meta);
      nodeMap := nodeMap[a.node := state];
      var n := |nodes|;
      var offset := RandomOffset(n);
      nodes := nodes + [state];
      ListedMore(old(nodes), old(nodeMap), state);
      ListedSwapped(nodes, nodeMap, offset, n);
      SwappedSame(nodes, offset, n);
      AllFrom(Swapped(nodes, offset, n), nodes);
      nodes := Swapped(nodes, offset, n);
      numNodes := numNodes + 1;
      joined := true;
      EntriesMore(old(nodeMap), a.node, state);
    }

    method AliveNode(a: Message, bootstrap: bool, admitted: bool, now: nat)
      requires Valid() && a.Alive? && (a.vsn == [] || |a.vsn| == 6)
      requires a.incarnation < MAX_UINT32 && incarnation < MAX_UINT32
      modifies this`nodes, this`nodeMap, this`numNodes, this`joined, this`incarnation, this`outbox, nodes
      ensures Valid()
      ensures var r := OnAlive(old(View()), a, bootstrap, admitted, now); View() == r.view && outbox == old(outbox) + r.out
      ensures forall x | x in nodes :: x in old(nodes) || fresh(x)
      ensures a.node in old(nodeMap) || !admitted || (leave && a.node == name) ==> nodes == old(nodes)
    {
      hide Fair, Excused, Covered, Listed, Judge;
      if leave && a.node == name { return; }
      if !admitted { return; }
      var state;
      if a.node !in nodeMap {
        state := AddNode(a);
      } else {
        OthersDiffer(nodes, nodeMap, a.node);
        state := nodeMap[a.node];
      }
      JudgeAlive(state, a, bootstrap, now);
    }

    /** Whether to believe the message. */
    method JudgeAlive(state: NodeState, a: Message, bootstrap: bool, now: nat)
      requires Valid() && a.Alive? && (a.vsn == [] || |a.vsn| == 6) && a.node in nodeMap && nodeMap[a.node] == state
      requires a.incarnation < MAX_UINT32 && incarnation < MAX_UINT32
      modifies this`incarnation, this`outbox, state
      ensures Valid()
      ensures var r := Judge(old(View()), a, bootstrap, now); View() == r.view && outbox == old(outbox) + r.out
    {
      hide Fair, Excused, Refute, Revived;
      if state.address != a.address { return; }
      var isLocalNode := state.name == name;
      if a.incarnation <= state.incarnation && !isLocalNode { return; }
      if a.incarnation < state.incarnation && isLocalNode { return; }
      if !bootstrap && isLocalNode {
        if a.incarnation == state.incarnation && a.meta == state.meta && a.vsn == state.vsn { return; }
        RefuteClaim(a.incarnation);
      } else {
        Accept(state, a, now);
      }
    }

    /** Believe the message. */
    method Accept(state: NodeState, a: Message, now: nat)
      requires Valid() && a.Alive? && a.node in nodeMap && nodeMap[a.node] == state && (a.vsn == [] || |a.vsn| == 6)
      modifies this`outbox, state
      ensures Valid()
      ensures View() == old(View()).(table := old(View()).table[a.node := Revived(old(View()).table[a.node], a, now)])
      ensures outbox == old(outbox) + [a]
    {
      OthersDiffer(nodes, nodeMap, a.node);
      hide Fair, Excused, Covered, Listed, Revived;
      outbox := outbox + [a];
      state.Renew(a, now);
      assert View().table == old(View()).table[a.node := state.Value()];
    }

    method SuspectNode(s: Message, now: nat)
      requires Valid() && s.Suspect? && s.incarnation < MAX_UINT32 && incarnation < MAX_UINT32
      modifies this`incarnation, this`outbox, this`died, nodes
      ensures Valid() && nodes == old(nodes) && nodeMap == old(nodeMap) && died == old(died)
      ensures var r := OnSuspect(old(View()), s, now); View() == r.view && outbox == old(outbox) + r.out
    {
      hide Fair, Excused, Covered, Listed, Refute;
      if s.node !in nodeMap { return; }
      OthersDiffer(nodes, nodeMap, s.node);
      var state := nodeMap[s.node];
      if s.incarnation < state.incarnation { return; }
      if state.status != StateAlive { return; }
      if state.name == name {
        RefuteClaim(s.incarnation);
        return;
      }
      outbox := outbox + [s];
      Mark(state, s.incarnation, StateSuspect, now);
    }

    /** Set a node's state. */
    method Mark(state: NodeState, inc: nat, status: Status, now: nat)
      requires Valid() && state.name in nodeMap && nodeMap[state.name] == state
      modifies state, this`died
      ensures Valid()
      ensures died == (if status == StateDead then old(died) + {state} else old(died)) && state.status == status
      ensures View() == old(View()).(table := old(View()).table[state.name :=
                old(View()).table[state.name].(incarnation := inc, status := status, changed := now)])
    {
      OthersDiffer(nodes, nodeMap, state.name);
      hide Fair, Excused, Covered, Listed;
      state.incarnation := inc;
      state.status := status;
      state.changed := now;
      if status == StateDead {
        died := died + {state};
      }
      assert View().table == old(View()).table[state.name := state.Value()];
    }

    /** Runs when a suspicion is old enough.  The check and the death it leads to are one step. */
    method SuspectTimeout(node: string, changed: nat, now: nat)
      requires Valid() && incarnation < MAX_UINT32 && forall n | n in nodeMap :: nodeMap[n].incarnation < MAX_UINT32
      modifies this`incarnation, this`outbox, this`died, nodes
      ensures Valid() && nodes == old(nodes) && nodeMap == old(nodeMap)
      ensures old(died) <= died && forall x | x in died :: x in old(died) || (x in nodes && x.status == StateDead)
      ensures var r := OnTimeout(old(View()), node, changed, now); View() == r.view && outbox == old(outbox) + r.out
    {
      hide Fair, Excused, Covered, Listed, OnDead;
      if node in nodeMap && nodeMap[node].status == StateSuspect && nodeMap[node].changed == changed {
        DeadNode(Dead(nodeMap[node].incarnation, node, name), now);
      }
    }

    method DeadNode(d: Message, now: nat)
      requires Valid() && d.Dead? && d.incarnation < MAX_UINT32 && incarnation < MAX_UINT32
      modifies this`incarnation, this`outbox, this`died, nodes
      ensures Valid() && nodes == old(nodes) && nodeMap == old(nodeMap)
      ensures old(died) <= died && forall x | x in died :: x in old(died) || (x in nodes && x.status == StateDead)
      ensures var r := OnDead(old(View()), d, now); View() == r.view && outbox == old(outbox) + r.out
    {
      hide Fair, Excused, Covered, Listed, Refute;
      if d.node !in nodeMap { return; }
      OthersDiffer(nodes, nodeMap, d.node);
      var state := nodeMap[d.node];
      if d.incarnation < state.incarnation { return; }
      if state.status == StateDead { return; }
      if state.name == name {
        if !leave {
          RefuteClaim(d.incarnation);
          return;
        }
        outbox := outbox + [d];
      } else {
        outbox := outbox + [d];
      }
      Mark(state, d.incarnation, StateDead, now);
    }

    /** One line of the table a peer has sent. */
    method MergeRemote(r: Remote, admitted: bool, now: nat)
      requires Valid() && (r.vsn == [] || |r.vsn| == 6) && r.incarnation < MAX_UINT32 && incarnation < MAX_UINT32
      modifies this`nodes, this`nodeMap, this`numNodes, this`joined, this`incarnation, this`outbox, this`died, nodes
      ensures Valid() && died == old(died)
      ensures var o := OnRemote(old(View()), r, admitted, now); View() == o.view && outbox == old(outbox) + o.out
      ensures forall x | x in nodes :: x in old(nodes) || fresh(x)
    {
      hide Fair, Excused, Covered, Listed, OnAlive, OnSuspect;
      match r.status
      case StateAlive => AliveNode(Alive(r.incarnation, r.name, r.address, r.meta, r.vsn), false, admitted, now);
      case StateDead => SuspectNode(Suspect(r.incarnation, r.name, name), now);
      case StateSuspect => SuspectNode(Suspect(r.incarnation, r.name, name), now);
    }

    // ----------------------------------------------------- coming and going

    /** The node says that it is there, under a new incarnation. */
    method Announce(address: Address, meta: seq<byte>, vsn: seq<byte>, now: nat)
      requires Valid() && incarnation + 1 < MAX_UINT32 && |vsn| == 6
      modifies this`nodes, this`nodeMap, this`numNodes, this`joined, this`incarnation, this`outbox, nodes
      ensures Valid()
      ensures var v := old(View());
        var r := OnAlive(v.(incarnation := v.incarnation + 1), Alive(v.incarnation + 1, name, address, meta, vsn), true, true, now);
        View() == r.view && outbox == old(outbox) + r.out
    {
      hide Fair, Excused, Covered, Listed, OnAlive;
      var inc := NextIncarnation();
      assert View() == old(View()).(incarnation := inc);
      AliveNode(Alive(inc, name, address, meta, vsn), true, true, now);
    }

    /** First half of leaving: from now on the node does not come back. */
    method BeginLeave() returns (d: Message)
      requires Valid()
      modifies this`leave
      ensures Valid() && View() == old(View()).(leave := true)
      ensures d == Dead(if name in nodeMap then nodeMap[name].incarnation else 0, name, "")
    {
      leave := true;
      d := Dead(if name in nodeMap then nodeMap[name].incarnation else 0, name, "");
    }

    // ------------------------------------------------------ failure detection

    /** Bring the dead nodes to the end of the list; gives the place of the first of them. */
    method MoveDeadNodes() returns (deadIdx: nat)
      modifies this`nodes
      ensures multiset(nodes) == multiset(old(nodes)) && deadIdx <= |nodes| == |old(nodes)|
      ensures forall i | 0 <= i < deadIdx :: nodes[i].status != StateDead
      ensures forall i | deadIdx <= i < |nodes| :: nodes[i].status == StateDead
    {
      hide Swapped;
      var numDead, n := 0, |nodes|;
      var i := 0;
      while i < n - numDead
        invariant 0 <= i <= n - numDead && 0 <= numDead && n == |nodes| == |old(nodes)|
        invariant multiset(nodes) == multiset(old(nodes))
        invariant forall k | 0 <= k < i :: nodes[k].status != StateDead
        invariant forall k | n - numDead <= k < n :: nodes[k].status == StateDead
        decreases n - numDead - i
      {
        if nodes[i].status != StateDead {
          i := i + 1;
        } else {
          SwappedSame(nodes, i, n - numDead - 1);
          nodes := Swapped(nodes, i, n - numDead - 1);
          numDead := numDead + 1;
        }
      }
      deadIdx := n - numDead;
    }

    /** Fisher-Yates. */
    method ShuffleNodes()
      modifies this`nodes
      ensures multiset(nodes) == multiset(old(nodes)) && |nodes| == |old(nodes)|
    {
      hide Swapped;
      var i := |nodes| - 1;
      while i > 0
        invariant -1 <= i < |nodes| && |nodes| == |old(nodes)| && multiset(nodes) == multiset(old(nodes))
      {
        var j := RandomOffset(i + 1);
        SwappedSame(nodes, i, j);
        nodes := Swapped(nodes, i, j);
        i := i - 1;
      }
    }

    /** Forget the dead nodes and shuffle the others. */
    method ResetNodes()
      requires Valid()
      modifies this`nodes, this`nodeMap, this`numNodes, this`joined
      ensures Valid() && View() == Reaped(old(View())) && joined
      ensures |nodes| <= |old(nodes)|
      ensures forall x | x in nodes :: x in old(nodes) && x.status != StateDead
    {
      hide Fair, Excused, Covered, Listed;
      ghost var before := nodes;
      KeepLiving();
      ghost var kept := nodes;
      ShuffleNodes();
      ListedPermuted(kept, nodes, nodeMap);
      AllFrom(nodes, kept);
    }

    method KeepLiving()
      requires Valid()
      modifies this`nodes, this`nodeMap, this`numNodes, this`joined
      ensures Valid() && View() == Reaped(old(View())) && joined
      ensures |nodes| <= |old(nodes)|
      ensures forall x | x in nodes :: x in old(nodes) && x.status != StateDead
    {
      hide Fair, Excused, Covered, Listed, Entries, Living;
      ghost var before := nodes;
      var deadIdx := MoveDeadNodes();
      joined := true;
      ListedPermuted(before, nodes, nodeMap);
      AllFrom(nodes, before);
      Parted(nodes, nodeMap, deadIdx);
      DropDead(deadIdx);
      Survivors(old(nodeMap), nodeMap);
    }

    /** Take the dead nodes off the map and off the end of the list. */
    method DropDead(deadIdx: nat)
      requires Listed(nodes, nodeMap) && deadIdx <= |nodes|
      modifies this`nodes, this`nodeMap, this`numNodes
      ensures nodes == old(nodes)[..deadIdx] && numNodes == deadIdx && Listed(nodes, nodeMap)
      ensures Remaining(old(nodeMap), nodeMap, old(nodes)[deadIdx..])
    {
      hide Listed, Remaining;
      ghost var moved := nodes;
      NothingDropped(nodeMap, moved, deadIdx);
      for i := deadIdx to |nodes|
        invariant nodes == moved
        invariant Remaining(old(nodeMap), nodeMap, moved[deadIdx..i])
      {
        OneDropped(moved, old(nodeMap), nodeMap, deadIdx, i);
        nodeMap := nodeMap - {nodes[i].name};
      }
      assert moved[deadIdx..|moved|] == moved[deadIdx..];
      Trimmed(moved, old(nodeMap), deadIdx, nodeMap);
      nodes := nodes[..deadIdx];
      numNodes := deadIdx;
    }

    /** The probe index is at the end: reap, shuffle, and start again.  The round that ends is put on
        record; if nobody joined in it, every other node that was never dead was probed, once. */
    method Wrap()
      requires Valid() && probeIndex >= |nodes|
      modifies this`nodes, this`nodeMap, this`numNodes, this`joined, this`probeIndex, this`probed, this`passed,
               this`died, this`round, this`rounds
      ensures Valid() && View() == Reaped(old(View())) && probeIndex == 0 && probed == [] && passed == [] && died == {}
      ensures !joined && rounds == old(rounds) + 1
      ensures round == Round(old(nodes), old(probed), old(passed), old(died), old(joined)) && Fair(round, name)
      ensures |nodes| <= |old(nodes)|
      ensures forall x | x in nodes :: x in old(nodes) && x.status != StateDead
    {
      hide Valid, Covered, Listed, Entries, Living, Fair, Excused, Noted, Reaped, View;
      ghost var ended := Round(nodes, probed, passed, died, joined);
      RoundOver();
      ResetNodes();
      StartRound(ended);
    }

    /** From the front again. */
    method StartRound(ghost ended: Round)
      requires Valid() && joined && Fair(ended, name) && forall x | x in nodes :: x.status != StateDead
      modifies this`joined, this`probeIndex, this`probed, this`passed, this`died, this`round, this`rounds
      ensures Valid() && View() == old(View()) && probeIndex == 0 && probed == [] && passed == [] && died == {}
      ensures !joined && round == ended && rounds == old(rounds) + 1
    {
      hide Covered, Listed, Entries, Fair, Excused, Noted;
      NothingCovered(nodes, name);
      NoneDead(nodes);
      probeIndex, probed, passed, died, joined := 0, [], [], {}, false;
      round, rounds := ended, rounds + 1;
    }

    lemma RoundOver()
      requires Valid() && probeIndex >= |nodes|
      ensures Fair(Round(nodes, probed, passed, died, joined), name)
    {
      hide Covered, Listed, Fair, Excused, Noted;
      var ended := Round(nodes, probed, passed, died, joined);
      if joined {
        NothingToShow(ended, name);
      } else {
        CoveredOnce(probed, passed, nodes, probeIndex, nodeMap);
        RoundIsFair(ended, name);
      }
    }

    /** Go one node further; only this node and nodes that have been dead may be passed over. */
    method Advance(ghost probing: bool)
      requires Valid() && probeIndex < |nodes|
      requires !probing ==> !IsTarget(nodes[probeIndex])
      modifies this`probeIndex, this`probed, this`passed
      ensures Valid() && View() == old(View()) && probeIndex == old(probeIndex) + 1
      ensures var x := nodes[old(probeIndex)];
              && probed == (if probing then old(probed) + [x] else old(probed))
              && passed == (if probing then old(passed) else old(passed) + [x])
    {
      hide Covered, Listed, Entries, Fair;
      if !joined {
        CoveredMore(probed, passed, nodes, probeIndex);
      }
      if probing {
        probed := probed + [nodes[probeIndex]];
      } else {
        passed := passed + [nodes[probeIndex]];
      }
      probeIndex := probeIndex + 1;
    }

    predicate IsTarget(x: NodeState)
      reads x
    {
      x.name != name && x.status != StateDead
    }

    /** Pick the next node to probe.  At the end of the list the dead are forgotten, at most once in a
        call, and the round that ends there is the one whose probes were the nodes picked since the
        last wrap.  Nothing is picked only if there is nothing to pick or the wrap used up a turn. */
    method Probe() returns (target: NodeState?)
      requires Valid()
      modifies this`nodes, this`nodeMap, this`numNodes, this`joined, this`probeIndex, this`probed, this`passed,
               this`died, this`round, this`rounds
      ensures Valid() && old(rounds) <= rounds <= old(rounds) + 1
      ensures target != null ==> target in nodes && IsTarget(target)
      ensures rounds == old(rounds) ==>
                && View() == old(View()) && nodes == old(nodes) && round == old(round) && died == old(died) && joined == old(joined)
                && probed == old(probed) + Picked(target)
                && (target == null ==> forall x | x in nodes :: !IsTarget(x))
      ensures rounds > old(rounds) ==>
                && View() == Reaped(old(View())) && probed == Picked(target) && died == {} && !joined
                && round.nodes == old(nodes) && round.probed == old(probed) && round.died == old(died) && round.joined == old(joined)
    {
      hide Covered, Listed, Entries, Living, Fair, Excused;
      var numCheck := 0;
      ghost var wrapped := false;
      while numCheck < |nodes|
        invariant Valid() && 0 <= numCheck && rounds == old(rounds) + if wrapped then 1 else 0
        invariant if wrapped then View() == Reaped(old(View())) && probed == [] && died == {} && probeIndex < numCheck && !joined
                  else View() == old(View()) && probed == old(probed) && nodes == old(nodes) && round == old(round)
                       && died == old(died) && joined == old(joined) && probeIndex == old(probeIndex) + numCheck
        invariant wrapped ==> round.nodes == old(nodes) && round.probed == old(probed) && round.died == old(died)
                              && round.joined == old(joined)
        invariant !wrapped && numCheck > 0 ==> probeIndex <= |nodes|
        invariant !wrapped ==> forall k | old(probeIndex) <= k < probeIndex && k < |nodes| :: !IsTarget(nodes[k])
        decreases |nodes| - numCheck
      {
        if probeIndex >= |nodes| {
          Wrap();
          wrapped := true;
          numCheck := numCheck + 1;
        } else {
          var node := nodes[probeIndex];
          var skip := node.name == name || node.status == StateDead;
          Advance(!skip);
          if !skip { return node; }
          numCheck := numCheck + 1;
        }
      }
      target := null;
    }

    // --------------------------------------------------------- exchanges

    /** A peer's whole table. */
    method MergeState(remote: seq<Remote>, admitted: seq<bool>, now: nat, ghost most: nat)
      requires Valid() && |admitted| == |remote| && forall r | r in remote :: (r.vsn == [] || |r.vsn| == 6) && r.incarnation <= most
      requires incarnation <= most && most + |remote| < MAX_UINT32
      modifies this`nodes, this`nodeMap, this`numNodes, this`joined, this`incarnation, this`outbox, this`died, nodes
      ensures Valid() && died == old(died)
      ensures var o := OnRemotes(old(View()), remote, admitted, now); View() == o.view && outbox == old(outbox) + o.out
    {
      hide Fair, Excused, Covered, Listed, Entries, OnRemote;
      ghost var v := View();
      RemotesNone(v, remote, admitted, now);
      for i := 0 to |remote|
        invariant Valid() && incarnation <= most + i && died == old(died)
        invariant forall x | x in nodes :: x in old(nodes) || fresh(x)
        invariant var o := OnRemotes(v, remote[..i], admitted[..i], now); View() == o.view && outbox == old(outbox) + o.out
      {
        RemotesMore(v, remote, admitted, i, now);
        RemoteCounts(View(), remote[i], admitted[i], now);
        assert forall k | 0 <= k < |nodes| :: nodes[k] in old(nodes) || fresh(nodes[k]);
        MergeRemote(remote[i], admitted[i], now);
      }
      assert remote[..|remote|] == remote && admitted[..|remote|] == admitted;
    }

    /** Leave without anything heard in between: the node is dead in its own eyes. */
    method Leave(now: nat)
      requires Valid() && KnowsItself(View()) && incarnation < MAX_UINT32
      requires name in nodeMap ==> nodeMap[name].incarnation < MAX_UINT32
      modifies this`leave, this`incarnation, this`outbox, this`died, nodes
      ensures Valid()
      ensures leave && (!old(leave) ==> HasLeft(View()))
    {
      hide Fair, Excused, Covered, Listed;
      if !leave {
        var known := name in nodeMap;
        var d := BeginLeave();
        if !known { return; }
        LeaveDies(View(), d, now);
        DeadNode(d, now);
      }
    }
  }

  /** Every node in front of the index has been probed or passed over, once. */
  ghost predicate Covered(probed: seq<NodeState>, passed: seq<NodeState>, nodes: seq<NodeState>, index: nat) {
    index <= |nodes| && multiset(probed) + multiset(passed) == multiset(nodes[..index])
  }

  lemma NothingCovered(nodes: seq<NodeState>, name: string)
    ensures Covered([], [], nodes, 0) && Excused([], {}, name)
  {
    assert nodes[..0] == [];
  }

  lemma CoveredMore(probed: seq<NodeState>, passed: seq<NodeState>, nodes: seq<NodeState>, index: nat)
    requires Covered(probed, passed, nodes, index) && index < |nodes|
    ensures Covered(probed + [nodes[index]], passed, nodes, index + 1)
    ensures Covered(probed, passed + [nodes[index]], nodes, index + 1)
  {
    assert nodes[..index + 1] == nodes[..index] + [nodes[index]];
  }

  /** Each node was probed once or passed over once, and not both. */
  ghost predicate EachOnce(probed: seq<NodeState>, passed: seq<NodeState>, nodes: seq<NodeState>) {
    forall x | x in nodes :: multiset(probed)[x] + multiset(passed)[x] == 1
  }

  /** Covered to the end: each node is on exactly one of the lists, and only once. */
  lemma CoveredOnce(probed: seq<NodeState>, passed: seq<NodeState>, nodes: seq<NodeState>, index: nat,
                    nodeMap: map<string, NodeState>)
    requires Listed(nodes, nodeMap) && Covered(probed, passed, nodes, index) && index >= |nodes|
    ensures EachOnce(probed, passed, nodes)
    ensures forall x | x in probed || x in passed :: x in nodes
  {
    OnceEach(nodes);
    assert nodes[..|nodes|] == nodes;
    forall x | x in nodes ensures multiset(probed)[x] + multiset(passed)[x] == 1 {
      assert x in multiset(nodes);
      assert multiset(nodes)[x] <= 1;
      assert (multiset(probed) + multiset(passed))[x] == multiset(nodes)[x];
    }
    forall x | x in probed || x in passed ensures x in nodes {
      assert x in multiset(probed) || x in multiset(passed);
      assert x in multiset(nodes);
    }
  }

  /** A random place below `n`. */
  method RandomOffset(n: nat) returns (r: nat)
    ensures if n == 0 then r == 0 else r < n
  {
    if n == 0 { return 0; }
    r :| 0 <= r < n;
  }

  function Swapped<T>(s: seq<T>, i: nat, j: nat): (r: seq<T>)
    requires i < |s| && j < |s|
    ensures |r| == |s|
  {
    s[i := s[j]][j := s[i]]
  }

  /** A list without repetitions of exactly the nodes of the map, under their names. */
  ghost predicate Listed(nodes: seq<NodeState>, nodeMap: map<string, NodeState>) {
    && (forall i, j | 0 <= i < j < |nodes| :: nodes[i] != nodes[j])
    && (forall i | 0 <= i < |nodes| :: nodes[i].name in nodeMap && nodeMap[nodes[i].name] == nodes[i])
    && (forall n | n in nodeMap :: nodeMap[n] in nodes && nodeMap[n].name == n)
  }

  lemma OthersDiffer(nodes: seq<NodeState>, nodeMap: map<string, NodeState>, n: string)
    requires Listed(nodes, nodeMap) && n in nodeMap
    ensures nodeMap[n] in nodes && nodeMap[n].name == n && forall m | m in nodeMap && m != n :: nodeMap[m] != nodeMap[n]
  {
  }

  lemma SwappedSame<T>(s: seq<T>, i: nat, j: nat)
    requires i < |s| && j < |s|
    ensures multiset(Swapped(s, i, j)) == multiset(s)
    ensures Swapped(s, i, j)[i] == s[j] && Swapped(s, i, j)[j] == s[i]
    ensures forall k | 0 <= k < |s| && k != i && k != j :: Swapped(s, i, j)[k] == s[k]
  {
  }

  lemma AllFrom<T>(s: seq<T>, r: seq<T>)
    requires multiset(s) == multiset(r)
    ensures forall x | x in s :: x in r
    ensures forall x | x in r :: x in s
  {
    forall x | x in s ensures x in r {
      assert x in multiset(s);
    }
    forall x | x in r ensures x in s {
      assert x in multiset(r);
    }
  }

  lemma Parted(nodes: seq<NodeState>, nodeMap: map<string, NodeState>, cut: nat)
    requires Listed(nodes, nodeMap) && cut <= |nodes|
    requires forall i | 0 <= i < cut :: nodes[i].status != StateDead
    requires forall i | cut <= i < |nodes| :: nodes[i].status == StateDead
    ensures forall n | n in nodeMap :: nodeMap[n] !in nodes[cut..] <==> nodeMap[n].status != StateDead
  {
  }

  /** The table without its dead nodes. */
  lemma Survivors(nodeMap: map<string, NodeState>, rest: map<string, NodeState>)
    requires forall n | n in rest :: n in nodeMap && rest[n] == nodeMap[n]
    requires forall n | n in nodeMap :: n in rest <==> nodeMap[n].status != StateDead
    ensures Entries(rest) == Living(Entries(nodeMap))
  {
  }

  /** `rest` is the map without the nodes dropped. */
  ghost predicate Remaining(nodeMap: map<string, NodeState>, rest: map<string, NodeState>, dropped: seq<NodeState>) {
    && (forall n | n in rest :: n in nodeMap && rest[n] == nodeMap[n])
    && (forall n | n in nodeMap :: n in rest <==> nodeMap[n] !in dropped)
  }

  lemma NothingDropped(nodeMap: map<string, NodeState>, nodes: seq<NodeState>, i: nat)
    requires i <= |nodes|
    ensures Remaining(nodeMap, nodeMap, nodes[i..i])
  {
  }

  lemma OneDropped(nodes: seq<NodeState>, nodeMap: map<string, NodeState>, rest: map<string, NodeState>, cut: nat, i: nat)
    requires Listed(nodes, nodeMap) && cut <= i < |nodes| && Remaining(nodeMap, rest, nodes[cut..i])
    ensures Remaining(nodeMap, rest - {nodes[i].name}, nodes[cut..i + 1])
  {
    assert nodes[cut..i + 1] == nodes[cut..i] + [nodes[i]];
  }

  /** A list and a map cut back together. */
  lemma Trimmed(nodes: seq<NodeState>, nodeMap: map<string, NodeState>, cut: nat, rest: map<string, NodeState>)
    requires Listed(nodes, nodeMap) && cut <= |nodes|
    requires Remaining(nodeMap, rest, nodes[cut..])
    ensures Listed(nodes[..cut], rest)
  {
    forall i | 0 <= i < cut ensures nodes[i].name in rest && rest[nodes[i].name] == nodes[i] {
      assert forall j | cut <= j < |nodes| :: nodes[i] != nodes[j];
    }
    forall n | n in rest ensures rest[n] in nodes[..cut] {
      assert nodes == nodes[..cut] + nodes[cut..];
    }
  }

  lemma ListedMore(nodes: seq<NodeState>, nodeMap: map<string, NodeState>, state: NodeState)
    requires Listed(nodes, nodeMap) && state !in nodes && state.name !in nodeMap
    ensures Listed(nodes + [state], nodeMap[state.name := state])
  {
    forall n | n in nodeMap ensures nodeMap[n] in nodes + [state] {
      assert nodeMap[n] in nodes;
    }
  }

  lemma ListedSwapped(nodes: seq<NodeState>, nodeMap: map<string, NodeState>, i: nat, j: nat)
    requires Listed(nodes, nodeMap) && i < |nodes| && j < |nodes|
    ensures Listed(Swapped(nodes, i, j), nodeMap)
  {
    ListedPermuted(nodes, Swapped(nodes, i, j), nodeMap);
  }

  /** Only the order of the list may change. */
  lemma ListedPermuted(nodes: seq<NodeState>, other: seq<NodeState>, nodeMap: map<string, NodeState>)
    requires Listed(nodes, nodeMap) && multiset(other) == multiset(nodes)
    ensures Listed(other, nodeMap)
  {
    forall x | x in other ensures x in nodes && x.name in nodeMap && nodeMap[x.name] == x {
      assert x in multiset(other);
      assert x in nodes;
    }
    forall n | n in nodeMap ensures nodeMap[n] in other {
      assert nodeMap[n] in multiset(nodes);
    }
    OnceEach(nodes);
    forall i, j | 0 <= i < j < |other| ensures other[i] != other[j] {
      assert multiset(nodes)[other[i]] <= 1;
      if other[i] == other[j] {
        TwiceThere(other, i, j);
        assert false;
      }
    }
  }

  lemma {:induction false} OnceEach<T>(s: seq<T>)
    requires forall i, j | 0 <= i < j < |s| :: s[i] != s[j]
    ensures forall x :: multiset(s)[x] <= 1
  {
    if s != [] {
      var front, last := s[..|s| - 1], s[|s| - 1];
      OnceEach(front);
      assert s == front + [last];
      assert last !in multiset(front);
    }
  }

  lemma TwiceThere<T>(s: seq<T>, i: nat, j: nat)
    requires i < j < |s| && s[i] == s[j]
    ensures multiset(s)[s[i]] >= 2
  {
    assert s == s[..i] + [s[i]] + s[i + 1..j] + [s[j]] + s[j + 1..];
  }
}
