/** From Disperse to LoadStart and back: what of a task arrives at the other node. */
module Wire {
  import opened HrunTypes
  import opened Archive

  /** The two RPCs of the remote queue. `write`: the caller's bulk data is copied to the receiver first. */
  datatype Message = PushSmall(params: seq<byte>) | PushBulk(params: seq<byte>, data: seq<byte>, write: bool)

  /** Push chooses the RPC by the number of transfers; None is its fatal default case. */
  function ChooseRpc(xfers: seq<Transfer>): Option<Message> {
    if |xfers| == 1 then Some(PushSmall(xfers[0].data))
    else if |xfers| == 2 then Some(PushBulk(xfers[1].data, xfers[0].data, ReceiverRead in xfers[0].flags))
    else None
  }

  const NO_NODE := DomainId({}, 0)

  function Bare(data: seq<byte>): Transfer {
    Transfer({}, data, NO_NODE)
  }

  /** The transfer vector an RPC handler rebuilds; `buffer` is the content of its unfilled buffer. */
  function Rebuild(msg: Message, buffer: seq<byte>): seq<Transfer> {
    match msg
    case PushSmall(params) => [Bare(params)]
    case PushBulk(params, data, write) => [Bare(if write then data else buffer), Bare(params)]
  }

  /** Save, send, rebuild, load. */
  function Arrive(fields: seq<Field>, node: DomainId, buffer: seq<byte>): Option<seq<Field>> {
    var msg := ChooseRpc(Packed(fields, node));
    if msg.None? then None
    else
      var r := Unpack(Kinds(fields), Rebuild(msg.value, buffer));
      if r.None? then None else Some(r.value.fields)
  }

  /** The same fields with `data` as content of every transfer, as a receiver sees them. */
  function Received(fields: seq<Field>, data: seq<byte>): (r: seq<Field>)
    ensures |r| == |fields|
  {
    if fields == [] then []
    else [if fields[0].Bulk? then Bulk(Bare(data)) else fields[0]] + Received(fields[1..], data)
  }

  lemma {:induction false} ReceivedShape(fields: seq<Field>, data: seq<byte>)
    ensures
      var r := Received(fields, data);
      && Kinds(r) == Kinds(fields) && Stream(r) == Stream(fields)
      && Stamped(r, NO_NODE) == r
      && |Transfers(r, NO_NODE)| == |Transfers(fields, NO_NODE)|
      && (forall i | 0 <= i < |Transfers(r, NO_NODE)| :: Transfers(r, NO_NODE)[i] == Bare(data))
      && (forall i | 0 <= i < |fields| :: r[i] == if fields[i].Bulk? then Bulk(Bare(data)) else fields[i])
    decreases fields
  {
    if fields != [] {
      ReceivedShape(fields[1..], data);
      assert Received(fields, data)[1..] == Received(fields[1..], data);
    }
  }

  lemma {:induction false} StampIrrelevant(fields: seq<Field>, node: DomainId, other: DomainId)
    ensures |Transfers(fields, node)| == |Transfers(fields, other)|
    ensures forall i | 0 <= i < |Transfers(fields, node)| ::
              Transfers(fields, node)[i] == Transfers(fields, other)[i].(node := node)
    decreases fields
  {
    if fields != [] {
      StampIrrelevant(fields[1..], node, other);
    }
  }

  /** What the loader reads from a vector that holds the transfers of the received fields, then the blob. */
  lemma LoadsReceived(fields: seq<Field>, data: seq<byte>, xfers: seq<Transfer>)
    requires forall i | 0 <= i < |fields| :: Writable(fields[i])
    requires xfers == Transfers(Received(fields, data), NO_NODE) + [Bare(Stream(fields))]
    ensures Unpack(Kinds(fields), xfers) == Some(ReadAll(Received(fields, data), |xfers| - 1, []))
  {
    var r := Received(fields, data);
    ReceivedShape(fields, data);
    assert forall i | 0 <= i < |r| :: Writable(r[i]);
    UnpackPacked(r, NO_NODE, xfers, Bare(Stream(fields)));
  }

  /** Reading a vector of the transfers of `fields` and a blob of their plain bytes. */
  lemma UnpackPacked(fields: seq<Field>, node: DomainId, xfers: seq<Transfer>, blob: Transfer)
    requires forall i | 0 <= i < |fields| :: Writable(fields[i])
    requires xfers == Transfers(fields, node) + [blob] && blob.data == Stream(fields)
    ensures Unpack(Kinds(fields), xfers) == Some(ReadAll(Stamped(fields, node), |xfers| - 1, []))
  {
    assert xfers[0..] == xfers && Stream(fields) + [] == Stream(fields);
    ReadWritten(fields, node, xfers, 0, Stream(fields), []);
  }

  /**
   * A task without transfers arrives with all its fields equal. A task with one transfer arrives with
   * equal plain fields, and its bulk bytes are the sender's if the receiver is to read them, otherwise
   * whatever the unfilled buffer held. A task with more transfers is refused.
   */
  lemma TaskArrives(fields: seq<Field>, node: DomainId, buffer: seq<byte>)
    requires forall i | 0 <= i < |fields| :: Writable(fields[i])
    ensures
      var ts := Transfers(fields, node);
      && (|ts| == 0 ==> Arrive(fields, node, buffer) == Some(fields))
      && (|ts| == 1 ==> Arrive(fields, node, buffer)
                        == Some(Received(fields, if ReceiverRead in ts[0].flags then ts[0].data else buffer)))
      && (|ts| > 1 ==> Arrive(fields, node, buffer).None?)
  {
    var ts := Transfers(fields, node);
    StampIrrelevant(fields, node, NO_NODE);
    if |ts| == 0 {
      ReceivedShape(fields, []);
      LoadsReceived(fields, [], [Bare(Stream(fields))]);
      NoBulk(fields, node, []);
    } else if |ts| == 1 {
      var d := if ReceiverRead in ts[0].flags then ts[0].data else buffer;
      ReceivedShape(fields, d);
      LoadsReceived(fields, d, [Bare(d), Bare(Stream(fields))]);
    }
  }

  lemma {:induction false} NoBulk(fields: seq<Field>, node: DomainId, data: seq<byte>)
    requires Transfers(fields, node) == []
    ensures Received(fields, data) == fields
    decreases fields
  {
    if fields != [] {
      NoBulk(fields[1..], node, data);
    }
  }

  /** Plain values equal, and the bytes of every transfer equal. */
  ghost predicate SameContent(a: seq<Field>, b: seq<Field>) {
    |a| == |b| && forall i | 0 <= i < |a| ::
      if a[i].Bulk? then b[i].Bulk? && a[i].t.data == b[i].t.data else a[i] == b[i]
  }

  /** Whatever the receiver's new buffer holds, the content of the task arrives. */
  ghost predicate AlwaysArrives(fields: seq<Field>, node: DomainId, size: nat) {
    forall buffer: seq<byte> | |buffer| == size ::
      Arrive(fields, node, buffer).Some? && SameContent(fields, Arrive(fields, node, buffer).value)
  }

  lemma {:induction false} BulkIndex(fields: seq<Field>, node: DomainId) returns (k: nat)
    requires |Transfers(fields, node)| == 1
    ensures k < |fields| && fields[k].Bulk? && Transfers(fields, node)[0] == fields[k].t.(node := node)
    ensures forall i | 0 <= i < |fields| && fields[i].Bulk? :: i == k
    decreases fields
  {
    if fields[0].Bulk? {
      k := 0;
      assert Transfers(fields[1..], node) == [];
      forall i | 0 < i < |fields| ensures !fields[i].Bulk? {
        NotBulk(fields[1..], node, i - 1);
      }
    } else {
      var j := BulkIndex(fields[1..], node);
      k := j + 1;
      forall i | 0 <= i < |fields| && fields[i].Bulk? ensures i == k {
        assert i > 0 && fields[1..][i - 1].Bulk?;
      }
    }
  }

  lemma {:induction false} NotBulk(fields: seq<Field>, node: DomainId, i: nat)
    requires Transfers(fields, node) == [] && i < |fields|
    ensures !fields[i].Bulk?
    decreases fields
  {
    if i > 0 {
      NotBulk(fields[1..], node, i - 1);
    }
  }

  /** With one transfer, at index `k`: its content arrives exactly when the bytes put there are its own. */
  lemma OneTransfer(fields: seq<Field>, node: DomainId, buffer: seq<byte>, k: nat)
    requires forall i | 0 <= i < |fields| :: Writable(fields[i])
    requires |Transfers(fields, node)| == 1 && k < |fields| && fields[k].Bulk?
    requires Transfers(fields, node)[0] == fields[k].t.(node := node)
    requires forall i | 0 <= i < |fields| && fields[i].Bulk? :: i == k
    ensures
      var t := Transfers(fields, node)[0];
      && Arrive(fields, node, buffer).Some?
      && (SameContent(fields, Arrive(fields, node, buffer).value) <==> ReceiverRead in t.flags || buffer == t.data)
  {
    var t := Transfers(fields, node)[0];
    var d := if ReceiverRead in t.flags then t.data else buffer;
    TaskArrives(fields, node, buffer);
    ReceivedShape(fields, d);
  }

  /**
   * Exactly which serialisable tasks are always rebuilt with equal content: those without transfers,
   * and those with one transfer that is empty or that the receiver is to read.
   */
  lemma RebuiltExactly(fields: seq<Field>, node: DomainId)
    requires forall i | 0 <= i < |fields| :: Writable(fields[i])
    ensures
      var ts := Transfers(fields, node);
      var size := if |ts| > 0 then |ts[0].data| else 0;
      AlwaysArrives(fields, node, size)
      <==> |ts| == 0 || (|ts| == 1 && (ReceiverRead in ts[0].flags || ts[0].data == []))
  {
    var ts := Transfers(fields, node);
    var size := if |ts| > 0 then |ts[0].data| else 0;
    if |ts| == 0 {
      forall buffer: seq<byte> | |buffer| == size
        ensures Arrive(fields, node, buffer).Some? && SameContent(fields, Arrive(fields, node, buffer).value)
      {
        TaskArrives(fields, node, buffer);
      }
    } else if |ts| == 1 {
      var k := BulkIndex(fields, node);
      forall buffer: seq<byte> | |buffer| == size
        ensures
          && Arrive(fields, node, buffer).Some?
          && (SameContent(fields, Arrive(fields, node, buffer).value)
              <==> ReceiverRead in ts[0].flags || buffer == ts[0].data)
      {
        OneTransfer(fields, node, buffer, k);
      }
      if ReceiverRead !in ts[0].flags && ts[0].data != [] {
        var other: seq<byte> := seq(size, _ => if ts[0].data[0] == 0 then 1 else 0);
        assert other[0] != ts[0].data[0];
        assert !SameContent(fields, Arrive(fields, node, other).value);
      }
    } else {
      var buffer: seq<byte> := seq(size, _ => 0);
      TaskArrives(fields, node, buffer);
    }
  }

  // ---------------------------------------------------------------- the way back

  /** RpcComplete answers with the first transfer of SaveEnd, read as the blob. */
  function Reply(fields: seq<Field>, node: DomainId): seq<byte> {
    Packed(fields, node)[0].data
  }

  function LoadReply(ks: seq<Kind>, reply: seq<byte>): Option<seq<Field>> {
    var r := Unpack(ks, [Bare(reply)]);
    if r.None? then None else Some(r.value.fields)
  }

  /** Outputs without transfers come back equal, the empty output included. */
  lemma ReplyRoundTrip(fields: seq<Field>, node: DomainId)
    requires forall i | 0 <= i < |fields| :: Writable(fields[i])
    requires Transfers(fields, node) == []
    ensures LoadReply(Kinds(fields), Reply(fields, node)) == Some(fields)
  {
    StampIrrelevant(fields, node, NO_NODE);
    ReceivedShape(fields, []);
    LoadsReceived(fields, [], [Bare(Stream(fields))]);
    NoBulk(fields, node, []);
  }

  lemma {:induction false} SameContentSameBytes(a: seq<Field>, b: seq<Field>, node: DomainId)
    requires SameContent(a, b)
    ensures Stream(a) == Stream(b) && |Transfers(a, node)| == |Bulks(b)|
    decreases a
  {
    if a != [] {
      SameContentSameBytes(a[1..], b[1..], node);
    }
  }

  /** With one output transfer whose data happens to begin with the plain outputs, the reply reads back. */
  lemma ReplyThroughTransfer(fields: seq<Field>, node: DomainId, rest: seq<byte>)
    requires forall i | 0 <= i < |fields| :: Writable(fields[i])
    requires |Transfers(fields, node)| == 1 && Transfers(fields, node)[0].data == Stream(fields) + rest
    ensures
      var back := LoadReply(Kinds(fields), Reply(fields, node));
      back.Some? && SameContent(fields, back.value)
  {
    var d := Transfers(fields, node)[0].data;
    var r := Received(fields, d);
    ReceivedShape(fields, d);
    StampIrrelevant(fields, node, NO_NODE);
    var k := BulkIndex(fields, node);
    assert forall i | 0 <= i < |r| :: Writable(r[i]);
    assert [Bare(d)][0..] == [Bare(d)] == Transfers(r, NO_NODE);
    ReadWritten(r, NO_NODE, [Bare(d)], 0, d, rest);
  }

  /**
   * Exactly when the outputs come back with equal content: when they hold no transfer, or one whose data
   * happens to begin with the encoded plain outputs. In all other cases an output is lost or garbled.
   */
  lemma ReplyExactly(fields: seq<Field>, node: DomainId)
    requires forall i | 0 <= i < |fields| :: Writable(fields[i])
    ensures
      var ts := Transfers(fields, node);
      var back := LoadReply(Kinds(fields), Reply(fields, node));
      (back.Some? && SameContent(fields, back.value))
      <==> |ts| == 0 || (|ts| == 1 && Stream(fields) <= ts[0].data)
  {
    var ts := Transfers(fields, node);
    var back := LoadReply(Kinds(fields), Reply(fields, node));
    if |ts| == 0 {
      ReplyRoundTrip(fields, node);
    } else {
      var d := ts[0].data;
      assert Reply(fields, node) == d;
      if |ts| == 1 && Stream(fields) <= d {
        ReplyThroughTransfer(fields, node, d[|Stream(fields)|..]);
      }
      if back.Some? && SameContent(fields, back.value) {
        ReadIsWritten(Kinds(fields), [Bare(d)], 0, d, Unpack(Kinds(fields), [Bare(d)]).value);
        SameContentSameBytes(fields, back.value, node);
      }
    }
  }

  /** An output transfer hides the parameters: the origin is sent the transfer in place of the blob. */
  lemma ReplyWithTransferLosesBlob(t: Transfer, n: u32, node: DomainId)
    ensures Reply([Bulk(t), U32(n)], node) == t.data
    ensures t.data == [] ==> LoadReply([KBulk, KU32], Reply([Bulk(t), U32(n)], node)).None?
  {
    var fields := [Bulk(t), U32(n)];
    var first := t.(node := node);
    assert fields[1..] == [U32(n)] && Transfers(fields, node)[0] == first;
    if t.data == [] {
      var ks := [KBulk, KU32];
      assert ks[1..] == [KU32];
      assert ReadFrom(ks[1..], [Bare([])], 1, []).None?;
    }
  }

  lemma NumberReply(value: u32, node: DomainId)
    ensures LoadReply([KU32], Reply([U32(value)], node)) == Some([U32(value)])
  {
    var field := [U32(value)];
    assert Kinds(field) == [KU32] && Transfers(field, node) == [] by { assert field[1..] == []; }
    ReplyRoundTrip(field, node);
  }

  /** The client side of a push: load reply r into slot r, for every target in turn. */
  method LoadReplies(ret: array<u32>, replies: seq<seq<byte>>, ghost values: seq<u32>, ghost nodes: seq<DomainId>)
    requires ret.Length == |replies| == |values| == |nodes|
    requires forall r | 0 <= r < |replies| :: replies[r] == Reply([U32(values[r])], nodes[r])
    modifies ret
    ensures ret[..] == values
  {
    for r := 0 to |replies|
      invariant forall i | 0 <= i < r :: ret[i] == values[i]
    {
      NumberReply(values[r], nodes[r]);
      var loaded := LoadReply([KU32], replies[r]);
      ret[r] := loaded.value[0].n;
    }
  }
}
