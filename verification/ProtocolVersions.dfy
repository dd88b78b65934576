/** Can every member of the cluster understand every other one? */
module ProtocolVersions {
  import opened Bytes
  import opened Swim

  /** Versions a node speaks, protocol first; a node without versions speaks zero. */
  function Speaks(vsn: seq<byte>): (byte, byte)
    requires vsn == [] || |vsn| == 6
  {
    if vsn == [] then (0, 0) else (vsn[2], vsn[5])
  }

  /** A node that declares versions understands what lies in its ranges. */
  predicate Understands(vsn: seq<byte>, spoken: (byte, byte))
    requires vsn == [] || |vsn| == 6
  {
    vsn == [] || (vsn[0] <= spoken.0 <= vsn[1] && vsn[3] <= spoken.1 <= vsn[4])
  }

  ghost predicate WellFormed(remote: seq<Remote>, nodes: seq<Entry>) {
    && (forall r | r in remote :: r.vsn == [] || |r.vsn| == 6)
    && (forall e | e in nodes :: |e.vsn| == 6)
  }

  /** Every living node, here or there, understands `spoken`. */
  ghost predicate Understood(remote: seq<Remote>, nodes: seq<Entry>, spoken: (byte, byte))
    requires WellFormed(remote, nodes)
  {
    && (forall r | r in remote && r.status == StateAlive :: Understands(r.vsn, spoken))
    && (forall e | e in nodes && e.status == StateAlive :: Understands(e.vsn, spoken))
  }

  /** Greatest minimum and least maximum, of the protocol and of the delegate. */
  datatype Range = Range(maxpmin: byte, minpmax: byte, maxdmin: byte, mindmax: byte)

  function Narrow(g: Range, vsn: seq<byte>): Range
    requires |vsn| == 6
  {
    Range(if vsn[0] > g.maxpmin then vsn[0] else g.maxpmin, if vsn[1] < g.minpmax then vsn[1] else g.minpmax,
          if vsn[3] > g.maxdmin then vsn[3] else g.maxdmin, if vsn[4] < g.mindmax then vsn[4] else g.mindmax)
  }

  predicate InRange(g: Range, spoken: (byte, byte)) {
    g.maxpmin <= spoken.0 <= g.minpmax && g.maxdmin <= spoken.1 <= g.mindmax
  }

  /** The common range stands for the ranges of all living nodes. */
  method CommonRange(remote: seq<Remote>, nodes: seq<Entry>) returns (g: Range)
    requires WellFormed(remote, nodes)
    ensures forall spoken :: InRange(g, spoken) <==> Understood(remote, nodes, spoken)
  {
    g := Range(0, 255, 0, 255);
    for i := 0 to |remote|
      invariant forall spoken :: InRange(g, spoken) <==> forall r | r in remote[..i] && r.status == StateAlive :: Understands(r.vsn, spoken)
    {
      ghost var before := g;
      assert remote[i] in remote;
      assert remote[..i + 1] == remote[..i] + [remote[i]];
      if remote[i].status == StateAlive && |remote[i].vsn| > 0 {
        g := Narrow(g, remote[i].vsn);
      }
      assert forall spoken :: InRange(g, spoken) <==>
               InRange(before, spoken) && (remote[i].status == StateAlive ==> Understands(remote[i].vsn, spoken));
    }
    assert remote[..|remote|] == remote;
    for i := 0 to |nodes|
      invariant forall spoken :: InRange(g, spoken) <==>
                  && (forall r | r in remote && r.status == StateAlive :: Understands(r.vsn, spoken))
                  && (forall e | e in nodes[..i] && e.status == StateAlive :: Understands(e.vsn, spoken))
    {
      ghost var before := g;
      assert nodes[i] in nodes;
      assert nodes[..i + 1] == nodes[..i] + [nodes[i]];
      if nodes[i].status == StateAlive {
        g := Narrow(g, nodes[i].vsn);
      }
      assert forall spoken :: InRange(g, spoken) <==>
               InRange(before, spoken) && (nodes[i].status == StateAlive ==> Understands(nodes[i].vsn, spoken));
    }
    assert nodes[..|nodes|] == nodes;
  }

  /** Accepted exactly when every node, living or not, here or there, speaks versions that
      every living node that declares versions understands. */
  method VerifyProtocol(remote: seq<Remote>, nodes: seq<Entry>) returns (ok: bool)
    requires WellFormed(remote, nodes)
    ensures ok <==>
      && (forall r | r in remote :: Understood(remote, nodes, Speaks(r.vsn)))
      && (forall e | e in nodes :: Understood(remote, nodes, Speaks(e.vsn)))
  {
    var g := CommonRange(remote, nodes);
    for i := 0 to |remote|
      invariant forall r | r in remote[..i] :: Understood(remote, nodes, Speaks(r.vsn))
    {
      assert remote[..i + 1] == remote[..i] + [remote[i]];
      assert remote[i] in remote;
      if !InRange(g, Speaks(remote[i].vsn)) {
        assert !Understood(remote, nodes, Speaks(remote[i].vsn));
        return false;
      }
    }
    assert remote[..|remote|] == remote;
    for i := 0 to |nodes|
      invariant forall e | e in nodes[..i] :: Understood(remote, nodes, Speaks(e.vsn))
    {
      assert nodes[..i + 1] == nodes[..i] + [nodes[i]];
      assert nodes[i] in nodes;
      if !InRange(g, Speaks(nodes[i].vsn)) {
        assert !Understood(remote, nodes, Speaks(nodes[i].vsn));
        return false;
      }
    }
    assert nodes[..|nodes|] == nodes;
    ok := true;
  }
}
