/** Packing messages into one datagram, and taking them out again. */
module Datagram {
  import opened Bytes
  import opened BroadcastQueue

  const COMPOUND_MSG: byte := 7
  const USER_MSG: byte := 8
  const UDP_SEND_BUF := 1400
  const COMPOUND_HEADER_OVERHEAD := 2
  const COMPOUND_OVERHEAD := 2
  const USER_MSG_OVERHEAD := 1
  const VERSION_SIZE := 1
  const NONCE_SIZE := 12
  const TAG_SIZE := 16
  const BLOCK_SIZE := 16

  // ------------------------------------------------------------- packing

  /** Big-endian, 16 bits. */
  function TwoBytes(n: nat): (s: seq<byte>)
    ensures |s| == 2
  {
    [n / 256 % 256, n % 256]
  }

  function Table(msgs: seq<seq<byte>>): (s: seq<byte>)
    ensures |s| == 2 * |msgs|
  {
    if msgs == [] then [] else Table(msgs[..|msgs| - 1]) + TwoBytes(|msgs[|msgs| - 1]|)
  }

  function Concat(msgs: seq<seq<byte>>): seq<byte> {
    if msgs == [] then [] else Concat(msgs[..|msgs| - 1]) + msgs[|msgs| - 1]
  }

  function Compound(msgs: seq<seq<byte>>): seq<byte> {
    [COMPOUND_MSG, |msgs| % 256] + Table(msgs) + Concat(msgs)
  }

  method MakeCompoundMessage(msgs: seq<seq<byte>>) returns (buf: seq<byte>)
    ensures buf == Compound(msgs)
  {
    buf := [COMPOUND_MSG];
    buf := buf + [|msgs| % 256];
    assert msgs[..|msgs|] == msgs;
    for i := 0 to |msgs|
      invariant buf == [COMPOUND_MSG, |msgs| % 256] + Table(msgs[..i])
    {
      assert msgs[..i + 1][..i] == msgs[..i];
      buf := buf + TwoBytes(|msgs[i]|);
    }
    for i := 0 to |msgs|
      invariant buf == [COMPOUND_MSG, |msgs| % 256] + Table(msgs) + Concat(msgs[..i])
    {
      assert msgs[..i + 1][..i] == msgs[..i];
      buf := buf + msgs[i];
    }
  }

  // ----------------------------------------------------------- unpacking

  /** `Overread`: the length table is said to reach beyond the buffer, which the check does
      not notice when the size of the table wraps around. */
  datatype Decoded = Missing | TruncatedTable | Overread | Parts(trunc: nat, parts: seq<seq<byte>>)

  function LengthAt(buf: seq<byte>, i: nat): nat
    requires 2 * i + 2 <= |buf|
  {
    var high: nat, low: nat := buf[2 * i], buf[2 * i + 1];
    high * 256 + low
  }

  function Lengths(buf: seq<byte>, n: nat): (ls: seq<nat>)
    requires 2 * n <= |buf|
    ensures |ls| == n
  {
    seq(n, i requires 0 <= i < n => LengthAt(buf, i))
  }

  /** Cut the lengths off a body, one after the other. */
  function Split(lengths: seq<nat>, body: seq<byte>): (d: Decoded)
    ensures d.Parts? && |d.parts| + d.trunc == |lengths|
  {
    if lengths == [] then Parts(0, [])
    else if |body| < lengths[0] then Parts(|lengths|, [])
    else
      var rest := Split(lengths[1..], body[lengths[0]..]);
      Parts(rest.trunc, [body[..lengths[0]]] + rest.parts)
  }

  /** What decoding gives; the size of the length table is computed modulo 256. */
  function Decode(buf: seq<byte>): Decoded {
    if |buf| < 1 then Missing
    else
      var n: nat := buf[0];
      var rest := buf[1..];
      var skip := n * 2 % 256;
      if |rest| < skip then TruncatedTable
      else if |rest| < 2 * n then Overread
      else Split(Lengths(rest, n), rest[skip..])
  }

  method DecodeCompoundMessage(buf: seq<byte>) returns (d: Decoded)
    ensures d == Decode(buf)
  {
    if |buf| < 1 { return Missing; }
    var numParts: nat := buf[0];
    var rest := buf[1..];
    var skip: nat := numParts * 2 % 256;
    if |rest| < skip { return TruncatedTable; }
    var lengths: seq<nat> := [];
    for i := 0 to numParts
      invariant |lengths| == i && 2 * i <= |rest|
      invariant forall k | 0 <= k < i :: lengths[k] == LengthAt(rest, k)
    {
      if |rest| < 2 * i + 2 { return Overread; }
      var high: nat, low: nat := rest[2 * i], rest[2 * i + 1];
      lengths := lengths + [high * 256 + low];
    }
    assert lengths == Lengths(rest, numParts);
    rest := rest[skip..];
    ghost var body := rest;
    var parts: seq<seq<byte>> := [];
    for idx := 0 to |lengths|
      invariant Split(lengths, body) == Prefixed(parts, Split(lengths[idx..], rest))
    {
      if |rest| < lengths[idx] {
        return Parts(numParts - idx, parts);
      }
      assert lengths[idx..][1..] == lengths[idx + 1..];
      SplitOne(lengths[idx..], rest, parts);
      parts := parts + [rest[..lengths[idx]]];
      rest := rest[lengths[idx]..];
    }
    d := Parts(0, parts);
  }

  function Prefixed(parts: seq<seq<byte>>, d: Decoded): Decoded
    requires d.Parts?
  {
    Parts(d.trunc, parts + d.parts)
  }

  lemma SplitOne(lengths: seq<nat>, body: seq<byte>, parts: seq<seq<byte>>)
    requires lengths != [] && lengths[0] <= |body|
    ensures Prefixed(parts, Split(lengths, body))
         == Prefixed(parts + [body[..lengths[0]]], Split(lengths[1..], body[lengths[0]..]))
  {
  }

  // ---------------------------------------------------------- round trip

  function Sizes(msgs: seq<seq<byte>>): (ls: seq<nat>)
    ensures |ls| == |msgs|
  {
    seq(|msgs|, i requires 0 <= i < |msgs| => |msgs[i]|)
  }

  lemma {:induction false} ConcatFirst(msgs: seq<seq<byte>>)
    requires msgs != []
    ensures Concat(msgs) == msgs[0] + Concat(msgs[1..])
  {
    hide Concat;
    var front, last := msgs[..|msgs| - 1], msgs[|msgs| - 1];
    ConcatLast(msgs);
    if |msgs| == 1 {
      NothingJoined();
      assert front == [] && msgs[1..] == [] && [] + msgs[0] == msgs[0] + [];
    } else {
      ConcatFirst(front);
      ConcatLast(msgs[1..]);
      assert front[1..] == msgs[1..][..|msgs| - 2];
      assert msgs[0] + Concat(front[1..]) + last == msgs[0] + (Concat(front[1..]) + last);
    }
  }

  lemma NothingJoined()
    ensures Concat([]) == []
  {
  }

  lemma {:induction false} ConcatLast(msgs: seq<seq<byte>>)
    requires msgs != []
    ensures Concat(msgs) == Concat(msgs[..|msgs| - 1]) + msgs[|msgs| - 1]
  {
  }

  /** Splitting gives messages back exactly when the body starts with them. */
  lemma {:induction false} SplitExactly(msgs: seq<seq<byte>>, body: seq<byte>)
    ensures Split(Sizes(msgs), body) == Parts(0, msgs) <==> Concat(msgs) <= body
  {
    if msgs != [] {
      ConcatFirst(msgs);
      assert Sizes(msgs)[1..] == Sizes(msgs[1..]);
      var k := |msgs[0]|;
      if k <= |body| {
        SplitExactly(msgs[1..], body[k..]);
        assert body == body[..k] + body[k..];
        var rest := Split(Sizes(msgs[1..]), body[k..]);
        assert Split(Sizes(msgs), body) == Parts(rest.trunc, [body[..k]] + rest.parts);
        if Split(Sizes(msgs), body) == Parts(0, msgs) {
          assert ([body[..k]] + rest.parts)[0] == msgs[0] && ([body[..k]] + rest.parts)[1..] == msgs[1..];
        }
        if Concat(msgs) <= body {
          assert body[..k] == msgs[0];
          assert body[k..][..|Concat(msgs[1..])|] == Concat(msgs[1..]);
        }
      }
    }
  }

  lemma {:induction false} TableLengths(msgs: seq<seq<byte>>, after: seq<byte>)
    requires forall m | m in msgs :: |m| < 65536
    ensures Lengths(Table(msgs) + after, |msgs|) == Sizes(msgs)
  {
    if msgs != [] {
      var n := |msgs| - 1;
      var t := Table(msgs) + after;
      assert t == Table(msgs[..n]) + (TwoBytes(|msgs[n]|) + after);
      TableLengths(msgs[..n], TwoBytes(|msgs[n]|) + after);
      forall i | 0 <= i < |msgs| ensures Lengths(t, |msgs|)[i] == Sizes(msgs)[i] {
        if i < n {
          assert Lengths(t, |msgs|)[i] == Lengths(t, n)[i];
        } else {
          assert msgs[n] in msgs;
          assert t[2 * n] == |msgs[n]| / 256 % 256 && t[2 * n + 1] == |msgs[n]| % 256;
        }
      }
    }
  }

  /** Up to 255 messages come back exactly when the bytes behind the part of the length table
      that is skipped start with them; only 127 entries are skipped rightly. */
  lemma RoundTripExactly(msgs: seq<seq<byte>>)
    requires |msgs| < 256 && forall m | m in msgs :: |m| < 65536
    ensures Decode(Compound(msgs)[1..]) == Parts(0, msgs)
       <==> |msgs| <= 127 || Concat(msgs) <= (Table(msgs) + Concat(msgs))[2 * |msgs| - 256..]
  {
    hide Split, Lengths, Table, Concat, Compound, Decode, Sizes;
    var n := |msgs|;
    var body := if n <= 127 then Concat(msgs) else (Table(msgs) + Concat(msgs))[2 * n - 256..];
    DecodeCompound(msgs);
    SplitExactly(msgs, body);
  }

  lemma DecodeCompound(msgs: seq<seq<byte>>)
    requires |msgs| < 256 && forall m | m in msgs :: |m| < 65536
    ensures Decode(Compound(msgs)[1..]) == Split(Sizes(msgs),
              if |msgs| <= 127 then Concat(msgs) else (Table(msgs) + Concat(msgs))[2 * |msgs| - 256..])
  {
    hide Split, Lengths, Table, Concat, Sizes, Compound, Decode;
    var n := |msgs|;
    CompoundTail(msgs);
    DecodeBytes(n, Table(msgs), Concat(msgs));
    TableLengths(msgs, Concat(msgs));
  }

  lemma CompoundTail(msgs: seq<seq<byte>>)
    requires |msgs| < 256
    ensures Compound(msgs)[1..] == [|msgs|] + (Table(msgs) + Concat(msgs))
  {
    hide Table, Concat;
  }

  lemma DecodeBytes(n: nat, table: seq<byte>, body: seq<byte>)
    requires n < 256 && |table| == 2 * n
    ensures Decode([n] + (table + body)) == Split(Lengths(table + body, n), if n <= 127 then body else (table + body)[2 * n - 256..])
  {
    hide Split, Lengths;
    assert ([n] + (table + body))[1..] == table + body;
    assert (table + body)[2 * n..] == body;
  }

  /** So 128 messages or more do not come back if the first of them does not begin like the
      table from there on. */
  lemma TooManyParts(msgs: seq<seq<byte>>)
    requires 128 <= |msgs| < 256 && forall m | m in msgs :: |m| < 65536
    requires msgs[0] != [] && msgs[0][0] != Table(msgs)[2 * |msgs| - 256]
    ensures Decode(Compound(msgs)[1..]) != Parts(0, msgs)
  {
    RoundTripExactly(msgs);
    ConcatFirst(msgs);
    var shifted := (Table(msgs) + Concat(msgs))[2 * |msgs| - 256..];
    assert shifted[0] == Table(msgs)[2 * |msgs| - 256];
    assert Concat(msgs)[0] == msgs[0][0];
  }

  /** Parts returned and parts reported missing add up to the count that was declared, and the
      parts are the bytes of the body in order. */
  lemma Accounting(buf: seq<byte>)
    requires Decode(buf).Parts? && buf[0] <= 127
    ensures |Decode(buf).parts| + Decode(buf).trunc == buf[0]
    ensures Concat(Decode(buf).parts) <= buf[1 + 2 * buf[0]..]
  {
    var rest := buf[1..];
    SplitPrefix(Lengths(rest, buf[0]), rest[2 * buf[0]..]);
    assert rest[2 * buf[0]..] == buf[1 + 2 * buf[0]..];
  }

  lemma {:induction false} SplitPrefix(lengths: seq<nat>, body: seq<byte>)
    ensures Concat(Split(lengths, body).parts) <= body
  {
    if lengths != [] && lengths[0] <= |body| {
      SplitPrefix(lengths[1..], body[lengths[0]..]);
      var rest := Split(lengths[1..], body[lengths[0]..]);
      var all := [body[..lengths[0]]] + rest.parts;
      ConcatFirst(all);
      assert all[1..] == rest.parts;
      assert body == body[..lengths[0]] + body[lengths[0]..];
    }
  }

  // ---------------------------------------------------------------- sizes

  lemma {:induction false} ConcatSize(msgs: seq<seq<byte>>)
    ensures Size(msgs, COMPOUND_OVERHEAD) == 2 * |msgs| + |Concat(msgs)|
  {
    if msgs != [] {
      ConcatFirst(msgs);
      ConcatSize(msgs[1..]);
    }
  }

  /** Encryption versions 0 and 1; -1 stands for no encryption. */
  function EncryptOverhead(version: int): nat
    requires version == 0 || version == 1
  {
    if version == 0 then 45 else 29
  }

  function EncryptedLength(version: int, inp: nat): nat
    requires version == 0 || version == 1
  {
    if version >= 1 then VERSION_SIZE + NONCE_SIZE + inp + TAG_SIZE
    else VERSION_SIZE + NONCE_SIZE + inp + (BLOCK_SIZE - inp % BLOCK_SIZE) + TAG_SIZE
  }

  /** Length on the wire of a payload that compression did not make longer. */
  function WireLength(version: int, payload: nat): nat
    requires -1 <= version <= 1
  {
    if version == -1 then payload else EncryptedLength(version, payload)
  }

  function Available(version: int): int
    requires -1 <= version <= 1
  {
    UDP_SEND_BUF - COMPOUND_HEADER_OVERHEAD - if version == -1 then 0 else EncryptOverhead(version)
  }

  /** What the overhead is worth: padding included, encryption never adds more. */
  lemma EncryptionBounded(version: int, inp: nat)
    requires version == 0 || version == 1
    ensures EncryptedLength(version, inp) <= inp + EncryptOverhead(version)
    ensures version == 0 && inp % BLOCK_SIZE == 0 ==> EncryptedLength(version, inp) == inp + EncryptOverhead(version)
  {
  }

  /** Messages that fit the space left by the overheads make a datagram that fits. */
  lemma GossipFits(msgs: seq<seq<byte>>, version: int, payload: nat)
    requires -1 <= version <= 1 && Size(msgs, COMPOUND_OVERHEAD) <= Available(version)
    requires payload <= |Compound(msgs)|
    ensures WireLength(version, payload) <= UDP_SEND_BUF
  {
    ConcatSize(msgs);
    if version >= 0 {
      EncryptionBounded(version, payload);
    }
  }

  /** Nine bytes a message are enough to stay below 128 parts. */
  lemma {:induction false} FewParts(msgs: seq<seq<byte>>)
    requires forall m | m in msgs :: |m| >= 9
    ensures 11 * |msgs| <= Size(msgs, COMPOUND_OVERHEAD)
  {
    if msgs != [] {
      assert msgs[0] in msgs;
      FewParts(msgs[1..]);
    }
  }

  /** A message and the broadcasts it takes along, as one payload. */
  lemma PiggybackSize(msg: seq<byte>, extra: seq<seq<byte>>)
    ensures |Compound([msg] + extra)| == COMPOUND_HEADER_OVERHEAD + COMPOUND_OVERHEAD + |msg| + Size(extra, COMPOUND_OVERHEAD)
  {
    assert ([msg] + extra)[1..] == extra;
    ConcatSize([msg] + extra);
    ConcatSize(extra);
    ConcatFirst([msg] + extra);
  }

  /** The space computed for broadcasts leaves out the table entry of the message that takes them
      along.  Sent without compression, the datagram is too long if and only if that entry no longer
      fits and nothing pads: the padding of version 0 is counted too high by more than the entry. */
  lemma PiggybackOverruns(msg: seq<byte>, extra: seq<seq<byte>>, version: int)
    requires -1 <= version <= 1 && extra != []
    requires Size(extra, COMPOUND_OVERHEAD) <= Available(version) - |msg|
    ensures WireLength(version, |Compound([msg] + extra)|) > UDP_SEND_BUF
       <==> version != 0 && |msg| + Size(extra, COMPOUND_OVERHEAD) + COMPOUND_OVERHEAD > Available(version)
    ensures forall payload: nat | payload <= |Compound([msg] + extra)| ::
              WireLength(version, payload) <= UDP_SEND_BUF + if version == 0 then 0 else COMPOUND_OVERHEAD
  {
    PiggybackSize(msg, extra);
  }

  /** A thousand bytes that take one broadcast of 396 along go out as 1402 bytes. */
  lemma TwoBytesTooMany(msg: seq<byte>, b: seq<byte>)
    requires |msg| == 1000 && |b| == 396
    ensures Size([b], COMPOUND_OVERHEAD) <= Available(-1) - |msg|
    ensures WireLength(-1, |Compound([msg] + [b])|) == 1402 > UDP_SEND_BUF
  {
    SizeOne(b, COMPOUND_OVERHEAD);
    PiggybackSize(msg, [b]);
  }

  lemma {:induction false} SizeAppend(a: seq<seq<byte>>, b: seq<seq<byte>>, overhead: nat)
    ensures Size(a + b, overhead) == Size(a, overhead) + Size(b, overhead)
  {
    if a == [] {
      assert a + b == b;
    } else {
      assert (a + b)[1..] == a[1..] + b;
      SizeAppend(a[1..], b, overhead);
    }
  }

  // ------------------------------------------------------------- gossiping

  /** Broadcasts of the cluster first, then what the user has to say, framed.
      `userBroadcasts` keeps within the limit it is given. */
  method GetBroadcasts(queue: TransmitLimitedQueue, overhead: nat, limit: int, transmitLimit: int,
                       hasDelegate: bool, userBroadcasts: (nat, int) -> seq<seq<byte>>)
    returns (toSend: seq<seq<byte>>)
    requires queue.Valid() && queue.least <= transmitLimit <= queue.bound
    requires forall o: nat, l: int :: Size(userBroadcasts(o, l), o) <= Max(0, l)
    modifies queue
    ensures queue.Valid()
    ensures toSend != [] ==> Size(toSend, overhead) <= limit
  {
    toSend := queue.GetBroadcasts(overhead, limit, transmitLimit);
    if hasDelegate {
      toSend := AddUserMessages(toSend, overhead, limit, userBroadcasts);
    }
  }

  method AddUserMessages(queued: seq<seq<byte>>, overhead: nat, limit: int, userBroadcasts: (nat, int) -> seq<seq<byte>>)
    returns (toSend: seq<seq<byte>>)
    requires queued != [] ==> Size(queued, overhead) <= limit
    requires forall o: nat, l: int :: Size(userBroadcasts(o, l), o) <= Max(0, l)
    ensures toSend != [] ==> Size(toSend, overhead) <= limit
    ensures queued <= toSend
  {
    var bytesUsed := 0;
    assert queued[..|queued|] == queued;
    for i := 0 to |queued|
      invariant bytesUsed == Size(queued[..i], overhead)
    {
      SizeAppend(queued[..i], [queued[i]], overhead);
      assert queued[..i + 1] == queued[..i] + [queued[i]];
      SizeOne(queued[i], overhead);
      bytesUsed := bytesUsed + |queued[i]| + overhead;
    }
    toSend := queued;
    var avail := limit - bytesUsed;
    if avail > overhead + USER_MSG_OVERHEAD {
      var userMsgs := userBroadcasts(overhead + USER_MSG_OVERHEAD, avail);
      assert userMsgs[..|userMsgs|] == userMsgs;
      for i := 0 to |userMsgs|
        invariant Size(toSend, overhead) == bytesUsed + Size(userMsgs[..i], overhead + USER_MSG_OVERHEAD)
        invariant queued <= toSend
      {
        var buf := [USER_MSG] + userMsgs[i];
        SizeAppend(toSend, [buf], overhead);
        SizeAppend(userMsgs[..i], [userMsgs[i]], overhead + USER_MSG_OVERHEAD);
        assert userMsgs[..i + 1] == userMsgs[..i] + [userMsgs[i]];
        SizeOne(buf, overhead);
        SizeOne(userMsgs[i], overhead + USER_MSG_OVERHEAD);
        toSend := toSend + [buf];
      }
    }
  }

  lemma SizeOne(m: seq<byte>, overhead: nat)
    ensures Size([m], overhead) == overhead + |m|
  {
    assert [m][1..] == [];
  }

  /** One gossip datagram: at most 1400 bytes after compression and encryption, and if no
      message is shorter than nine bytes, decoding gives back exactly what was sent. */
  method Gossip(queue: TransmitLimitedQueue, transmitLimit: int, version: int,
                hasDelegate: bool, userBroadcasts: (nat, int) -> seq<seq<byte>>)
    returns (msgs: seq<seq<byte>>, compound: seq<byte>)
    requires queue.Valid() && queue.least <= transmitLimit <= queue.bound && -1 <= version <= 1
    requires forall o: nat, l: int :: Size(userBroadcasts(o, l), o) <= Max(0, l)
    modifies queue
    ensures queue.Valid()
    ensures msgs != [] ==> forall payload: nat | payload <= |compound| :: WireLength(version, payload) <= UDP_SEND_BUF
    ensures msgs != [] && (forall m | m in msgs :: |m| >= 9) ==>
              compound != [] && compound[0] == COMPOUND_MSG && |msgs| <= 127 && Decode(compound[1..]) == Parts(0, msgs)
  {
    compound := [];
    msgs := GetBroadcasts(queue, COMPOUND_OVERHEAD, Available(version), transmitLimit, hasDelegate, userBroadcasts);
    if |msgs| == 0 { return; }
    compound := MakeCompoundMessage(msgs);
    forall payload: nat | payload <= |compound| ensures WireLength(version, payload) <= UDP_SEND_BUF {
      GossipFits(msgs, version, payload);
    }
    if forall m | m in msgs :: |m| >= 9 {
      FewParts(msgs);
      ShortMessages(msgs);
      RoundTripExactly(msgs);
    }
  }

  /** What goes out for a message of this node, before compression: the message alone, or in front
      of the broadcasts it takes along. */
  method SendMsg(queue: TransmitLimitedQueue, msg: seq<byte>, transmitLimit: int, version: int,
                 hasDelegate: bool, userBroadcasts: (nat, int) -> seq<seq<byte>>)
    returns (payload: seq<byte>, ghost extra: seq<seq<byte>>)
    requires queue.Valid() && queue.least <= transmitLimit <= queue.bound && -1 <= version <= 1
    requires forall o: nat, l: int :: Size(userBroadcasts(o, l), o) <= Max(0, l)
    modifies queue
    ensures queue.Valid()
    ensures payload == if extra == [] then msg else Compound([msg] + extra)
    ensures extra != [] ==>
              (WireLength(version, |payload|) > UDP_SEND_BUF
          <==> version != 0 && |msg| + Size(extra, COMPOUND_OVERHEAD) + COMPOUND_OVERHEAD > Available(version))
    ensures extra != [] ==> WireLength(version, |payload|) <= UDP_SEND_BUF + COMPOUND_OVERHEAD
  {
    var avail := Available(version) - |msg|;
    var more := GetBroadcasts(queue, COMPOUND_OVERHEAD, avail, transmitLimit, hasDelegate, userBroadcasts);
    extra := more;
    if |more| == 0 {
      return msg, more;
    }
    PiggybackOverruns(msg, more, version);
    payload := MakeCompoundMessage([msg] + more);
  }

  lemma {:induction false} ShortMessages(msgs: seq<seq<byte>>)
    ensures forall m | m in msgs :: |m| <= Size(msgs, COMPOUND_OVERHEAD)
  {
    if msgs != [] {
      ShortMessages(msgs[1..]);
    }
  }
}
