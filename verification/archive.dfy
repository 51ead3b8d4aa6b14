/** The binary archives that carry a task between nodes: plain fields in a blob, bulk data beside it. */
module Archive {
  import opened HrunTypes

  type byte = x: int | 0 <= x < 256

  const U64_LIMIT := 0x1_0000_0000_0000_0000

  type u64 = x: int | 0 <= x < 0x1_0000_0000_0000_0000

  // ---------------------------------------------------------------- little-endian numbers

  function Pow256(n: nat): nat {
    if n == 0 then 1 else 256 * Pow256(n - 1)
  }

  /** The `n` low bytes of `v`, lowest first. */
  function Put(v: nat, n: nat): (bytes: seq<byte>)
    ensures |bytes| == n
  {
    if n == 0 then [] else [v % 256] + Put(v / 256, n - 1)
  }

  function Take(bytes: seq<byte>): nat {
    if bytes == [] then 0 else bytes[0] + 256 * Take(bytes[1..])
  }

  lemma {:induction false} PutTake(v: nat, n: nat)
    requires v < Pow256(n)
    ensures Take(Put(v, n)) == v
    decreases n
  {
    if n > 0 {
      assert v / 256 < Pow256(n - 1);
      PutTake(v / 256, n - 1);
      assert Put(v, n)[1..] == Put(v / 256, n - 1);
    }
  }

  lemma Widths()
    ensures Pow256(4) == U32_LIMIT && Pow256(8) == U64_LIMIT
  {
    assert Pow256(2) == 65536 && Pow256(4) == 65536 * 65536;
    assert Pow256(6) == 65536 * Pow256(4) && Pow256(8) == 65536 * Pow256(6);
  }

  // ---------------------------------------------------------------- fields

  datatype XferFlag = ReceiverRead | ReceiverWrite | FreeData

  datatype Transfer = Transfer(flags: set<XferFlag>, data: seq<byte>, node: DomainId)

  /** One value handed to an archive; a string is written as its 64-bit length and its bytes. */
  datatype Field = U32(n: u32) | U64(m: u64) | Text(s: seq<byte>) | Bulk(t: Transfer)

  datatype Kind = KU32 | KU64 | KText | KBulk

  predicate Writable(f: Field) {
    f.Text? ==> |f.s| < U64_LIMIT
  }

  function KindOf(f: Field): Kind {
    match f
    case U32(_) => KU32
    case U64(_) => KU64
    case Text(_) => KText
    case Bulk(_) => KBulk
  }

  function Kinds(fields: seq<Field>): (ks: seq<Kind>)
    ensures |ks| == |fields|
  {
    if fields == [] then [] else [KindOf(fields[0])] + Kinds(fields[1..])
  }

  /** What a plain field adds to the stream. */
  function Plain(f: Field): seq<byte> {
    match f
    case U32(n) => Put(n, 4)
    case U64(m) => Put(m, 8)
    case Text(s) => Put(|s|, 8) + s
    case Bulk(_) => []
  }

  function Stream(fields: seq<Field>): seq<byte> {
    if fields == [] then [] else Plain(fields[0]) + Stream(fields[1..])
  }

  /** The writer stamps every transfer with its own node. */
  function Stamp(f: Field, node: DomainId): Field {
    match f
    case Bulk(t) => Bulk(t.(node := node))
    case _ => f
  }

  function Stamped(fields: seq<Field>, node: DomainId): (r: seq<Field>)
    ensures |r| == |fields|
  {
    if fields == [] then [] else [Stamp(fields[0], node)] + Stamped(fields[1..], node)
  }

  function Transfers(fields: seq<Field>, node: DomainId): seq<Transfer> {
    if fields == [] then []
    else (if fields[0].Bulk? then [fields[0].t.(node := node)] else []) + Transfers(fields[1..], node)
  }

  /** What Get returns: the transfers in order, and the blob last. */
  function Packed(fields: seq<Field>, node: DomainId): seq<Transfer> {
    Transfers(fields, node) + [Transfer({ReceiverRead, FreeData}, Stream(fields), node)]
  }

  /** `v` without its `i` lowest bytes. */
  function Shifted(v: nat, i: nat): nat {
    if i == 0 then v else Shifted(v / 256, i - 1)
  }

  lemma {:induction false} PutByte(v: nat, n: nat, i: nat)
    requires i < n
    ensures Put(v, n)[i] == Shifted(v, i) % 256
    decreases n
  {
    if i > 0 {
      PutByte(v / 256, n - 1, i - 1);
    }
  }

  /** Numbers take 4 or 8 bytes, lowest first; a string its length in 8 bytes, and itself; a transfer nothing. */
  lemma PlainLayout(f: Field, i: nat)
    requires i < |Plain(f)|
    ensures |Plain(f)| == match f case U32(_) => 4 case U64(_) => 8 case Text(s) => 8 + |s| case Bulk(_) => 0
    ensures f.U32? ==> Plain(f)[i] == Shifted(f.n, i) % 256
    ensures f.U64? ==> Plain(f)[i] == Shifted(f.m, i) % 256
    ensures f.Text? && i < 8 ==> Plain(f)[i] == Shifted(|f.s|, i) % 256
    ensures f.Text? && i >= 8 ==> Plain(f)[i] == f.s[i - 8]
  {
    match f {
      case U32(n) => PutByte(n, 4, i);
      case U64(m) => PutByte(m, 8, i);
      case Text(s) => if i < 8 { PutByte(|s|, 8, i); }
      case Bulk(_) =>
    }
  }

  // ---------------------------------------------------------------- reading

  /** A value, the next transfer index, and the unread stream; None is a read past the end. */
  datatype Read = Read(field: Field, off: nat, rest: seq<byte>)

  function ReadOne(k: Kind, xfers: seq<Transfer>, off: nat, bytes: seq<byte>): Option<Read> {
    match k
    case KU32 =>
      if |bytes| < 4 || Take(bytes[..4]) >= U32_LIMIT then None
      else Some(Read(U32(Take(bytes[..4])), off, bytes[4..]))
    case KU64 =>
      if |bytes| < 8 || Take(bytes[..8]) >= U64_LIMIT then None
      else Some(Read(U64(Take(bytes[..8])), off, bytes[8..]))
    case KText =>
      if |bytes| < 8 || |bytes| - 8 < Take(bytes[..8]) then None
      else Some(Read(Text(bytes[8..8 + Take(bytes[..8])]), off, bytes[8 + Take(bytes[..8])..]))
    case KBulk =>
      if off >= |xfers| then None else Some(Read(Bulk(xfers[off]), off + 1, bytes))
  }

  datatype ReadAll = ReadAll(fields: seq<Field>, off: nat, rest: seq<byte>)

  function ReadFrom(ks: seq<Kind>, xfers: seq<Transfer>, off: nat, bytes: seq<byte>): Option<ReadAll>
    decreases ks
  {
    if ks == [] then Some(ReadAll([], off, bytes))
    else
      var one := ReadOne(ks[0], xfers, off, bytes);
      if one.None? then None
      else
        var more := ReadFrom(ks[1..], xfers, one.value.off, one.value.rest);
        if more.None? then None
        else Some(ReadAll([one.value.field] + more.value.fields, more.value.off, more.value.rest))
  }

  /** Read an archive: the last transfer is taken to be the blob. */
  function Unpack(ks: seq<Kind>, xfers: seq<Transfer>): Option<ReadAll> {
    if xfers == [] then None else ReadFrom(ks, xfers, 0, xfers[|xfers| - 1].data)
  }

  // ---------------------------------------------------------------- round trip

  lemma PlainRead(f: Field, xfers: seq<Transfer>, off: nat, rest: seq<byte>)
    requires Writable(f) && !f.Bulk?
    ensures ReadOne(KindOf(f), xfers, off, Plain(f) + rest) == Some(Read(f, off, rest))
  {
    Widths();
    var bytes := Plain(f) + rest;
    match f {
      case U32(n) =>
        PutTake(n, 4);
        assert bytes[..4] == Put(n, 4) && bytes[4..] == rest;
      case U64(m) =>
        PutTake(m, 8);
        assert bytes[..8] == Put(m, 8) && bytes[8..] == rest;
      case Text(s) =>
        PutTake(|s|, 8);
        assert bytes[..8] == Put(|s|, 8);
        assert bytes[8..8 + |s|] == s && bytes[8 + |s|..] == rest;
    }
  }

  /** The first field of what was written: a transfer comes from the transfer list... */
  lemma BulkHead(fields: seq<Field>, node: DomainId, xfers: seq<Transfer>, off: nat)
    requires fields != [] && fields[0].Bulk? && off <= |xfers| && Transfers(fields, node) <= xfers[off..]
    ensures off < |xfers| && xfers[off] == fields[0].t.(node := node)
    ensures Transfers(fields[1..], node) <= xfers[off + 1..]
    ensures Stream(fields) == Stream(fields[1..])
  {
    var ts := Transfers(fields, node);
    assert ts == [fields[0].t.(node := node)] + Transfers(fields[1..], node);
    assert xfers[off..][0] == ts[0];
    assert xfers[off + 1..] == xfers[off..][1..];
  }

  /** ... and a plain value from the stream. */
  lemma PlainHead(fields: seq<Field>, node: DomainId, xfers: seq<Transfer>, off: nat, rest: seq<byte>)
    requires fields != [] && Writable(fields[0]) && !fields[0].Bulk?
    ensures ReadOne(KindOf(fields[0]), xfers, off, Stream(fields) + rest)
            == Some(Read(fields[0], off, Stream(fields[1..]) + rest))
    ensures Transfers(fields[1..], node) == Transfers(fields, node)
  {
    var tail := Stream(fields[1..]) + rest;
    PlainRead(fields[0], xfers, off, tail);
    Regroup(Plain(fields[0]), Stream(fields[1..]), rest);
  }

  /** The first field read back, and what is left to read. */
  lemma Head(
    fields: seq<Field>, node: DomainId, xfers: seq<Transfer>, off: nat, bytes: seq<byte>, rest: seq<byte>, used: nat)
    requires bytes == Stream(fields) + rest
    requires fields != [] && Writable(fields[0]) && used == (if fields[0].Bulk? then 1 else 0)
    requires off <= |xfers| && Transfers(fields, node) <= xfers[off..]
    ensures off + used <= |xfers| && Transfers(fields[1..], node) <= xfers[off + used..]
    ensures ReadOne(KindOf(fields[0]), xfers, off, bytes)
            == Some(Read(Stamp(fields[0], node), off + used, Stream(fields[1..]) + rest))
    ensures |Transfers(fields, node)| == used + |Transfers(fields[1..], node)|
  {
    if fields[0].Bulk? {
      BulkHead(fields, node, xfers, off);
    } else {
      PlainHead(fields, node, xfers, off, rest);
    }
  }

  lemma ReadCons(
    ks: seq<Kind>, k: Kind, others: seq<Kind>, xfers: seq<Transfer>, off: nat, bytes: seq<byte>,
    one: Read, more: ReadAll)
    requires ks != [] && ks[0] == k && ks[1..] == others && ReadOne(k, xfers, off, bytes) == Some(one)
    requires ReadFrom(others, xfers, one.off, one.rest) == Some(more)
    ensures ReadFrom(ks, xfers, off, bytes) == Some(ReadAll([one.field] + more.fields, more.off, more.rest))
  {}

  lemma KindsCons(fields: seq<Field>, node: DomainId, ks: seq<Kind>)
    requires fields != [] && ks == Kinds(fields)
    ensures ks != [] && ks[0] == KindOf(fields[0]) && ks[1..] == Kinds(fields[1..])
    ensures Stamped(fields, node) == [Stamp(fields[0], node)] + Stamped(fields[1..], node)
  {}

  ghost predicate ReadsBack(
    fields: seq<Field>, node: DomainId, xfers: seq<Transfer>, off: nat, bytes: seq<byte>, rest: seq<byte>) {
    ReadFrom(Kinds(fields), xfers, off, bytes)
    == Some(ReadAll(Stamped(fields, node), off + |Transfers(fields, node)|, rest))
  }

  lemma ReadsBackCons(
    fields: seq<Field>, node: DomainId, xfers: seq<Transfer>, off: nat, bytes: seq<byte>, rest: seq<byte>,
    used: nat, one: Read)
    requires fields != [] && ReadOne(KindOf(fields[0]), xfers, off, bytes) == Some(one)
    requires one.field == Stamp(fields[0], node) && one.off == off + used
    requires |Transfers(fields, node)| == used + |Transfers(fields[1..], node)|
    requires ReadsBack(fields[1..], node, xfers, one.off, one.rest, rest)
    ensures ReadsBack(fields, node, xfers, off, bytes, rest)
  {
    var ks := Kinds(fields);
    KindsCons(fields, node, ks);
    ReadCons(ks, KindOf(fields[0]), Kinds(fields[1..]), xfers, off, bytes, one,
             ReadAll(Stamped(fields[1..], node), one.off + |Transfers(fields[1..], node)|, rest));
  }

  /** Reading back what was written, wherever the transfers and the bytes lie. */
  lemma {:induction false} ReadWritten(
    fields: seq<Field>, node: DomainId, xfers: seq<Transfer>, off: nat, bytes: seq<byte>, rest: seq<byte>)
    requires forall i | 0 <= i < |fields| :: Writable(fields[i])
    requires off <= |xfers| && Transfers(fields, node) <= xfers[off..] && bytes == Stream(fields) + rest
    ensures ReadsBack(fields, node, xfers, off, bytes, rest)
    decreases fields
  {
    if fields == [] {
      assert bytes == rest;
    } else {
      var used := if fields[0].Bulk? then 1 else 0;
      var tail := Stream(fields[1..]) + rest;
      Head(fields, node, xfers, off, bytes, rest, used);
      ReadWritten(fields[1..], node, xfers, off + used, tail, rest);
      ReadsBackCons(fields, node, xfers, off, bytes, rest, used, Read(Stamp(fields[0], node), off + used, tail));
    }
  }

  /**
   * For any mixed sequence of plain fields and transfers, reading the packed archive with the same
   * sequence of kinds returns the written values and the transfers in order, stamped by the writer;
   * it uses up the stream, consumes every transfer but the last, and so never the blob.
   */
  lemma ArchiveRoundTrip(fields: seq<Field>, node: DomainId)
    requires forall i | 0 <= i < |fields| :: Writable(fields[i])
    ensures
      var packed := Packed(fields, node);
      Unpack(Kinds(fields), packed) == Some(ReadAll(Stamped(fields, node), |packed| - 1, []))
  {
    var packed := Packed(fields, node);
    assert packed[0..] == packed;
    assert Stream(fields) + [] == Stream(fields);
    ReadWritten(fields, node, packed, 0, Stream(fields), []);
  }

  // ---------------------------------------------------------------- and back

  lemma {:induction false} TakePut(bytes: seq<byte>)
    ensures Put(Take(bytes), |bytes|) == bytes
  {
    if bytes != [] {
      var v, rest := Take(bytes), Take(bytes[1..]);
      LowByte(bytes[0], rest);
      TakePut(bytes[1..]);
      assert Put(v, |bytes|) == [v % 256] + Put(v / 256, |bytes| - 1);
    }
  }

  lemma LowByte(low: byte, high: nat)
    ensures (low + 256 * high) % 256 == low && (low + 256 * high) / 256 == high
  {}

  function Bulks(fields: seq<Field>): seq<Transfer> {
    if fields == [] then [] else (if fields[0].Bulk? then [fields[0].t] else []) + Bulks(fields[1..])
  }

  /** A field that was read is the field whose bytes were consumed. */
  lemma ReadOneBack(k: Kind, xfers: seq<Transfer>, off: nat, bytes: seq<byte>, r: Read)
    requires ReadOne(k, xfers, off, bytes) == Some(r)
    ensures KindOf(r.field) == k && Writable(r.field) && bytes == Plain(r.field) + r.rest
    ensures if k.KBulk? then off < |xfers| && r.field == Bulk(xfers[off]) && r.off == off + 1 else r.off == off
  {
    match k {
      case KU32 => NumberBack(bytes, 4);
      case KU64 => NumberBack(bytes, 8);
      case KText => TextBack(bytes, r);
      case KBulk =>
    }
  }

  lemma NumberBack(bytes: seq<byte>, n: nat)
    requires n <= |bytes|
    ensures bytes == Put(Take(bytes[..n]), n) + bytes[n..]
  {
    TakePut(bytes[..n]);
  }

  lemma TextBack(bytes: seq<byte>, r: Read)
    requires |bytes| >= 8 && Take(bytes[..8]) <= |bytes| - 8
    requires r.field == Text(bytes[8..8 + Take(bytes[..8])]) && r.rest == bytes[8 + Take(bytes[..8])..]
    ensures Writable(r.field) && bytes == Plain(r.field) + r.rest
  {
    var n := Take(bytes[..8]);
    Widths();
    TakeBound(bytes[..8]);
    NumberBack(bytes, 8);
    CutAt(bytes, 8, 8 + n);
    Regroup(Put(n, 8), r.field.s, r.rest);
  }

  lemma CutAt(bytes: seq<byte>, a: nat, b: nat)
    requires a <= b <= |bytes|
    ensures bytes[a..] == bytes[a..b] + bytes[b..]
  {}

  lemma {:induction false} TakeBound(bytes: seq<byte>)
    ensures Take(bytes) < Pow256(|bytes|)
  {
    if bytes != [] {
      TakeBound(bytes[1..]);
    }
  }

  /** The fields of `r`, written, are what lies between the beginning of the reads and their end. */
  ghost predicate Consumed(ks: seq<Kind>, xfers: seq<Transfer>, off: nat, bytes: seq<byte>, r: ReadAll) {
    && Kinds(r.fields) == ks && (forall i | 0 <= i < |r.fields| :: Writable(r.fields[i]))
    && bytes == Stream(r.fields) + r.rest
    && off <= r.off <= |xfers| && Bulks(r.fields) == xfers[off..r.off]
  }

  /**
   * The other direction of the round trip: whatever a sequence of reads yields, from any bytes, writing
   * it gives back exactly the bytes and the transfers that were consumed.
   */
  lemma {:induction false} ReadIsWritten(ks: seq<Kind>, xfers: seq<Transfer>, off: nat, bytes: seq<byte>, r: ReadAll)
    requires off <= |xfers| && ReadFrom(ks, xfers, off, bytes) == Some(r)
    ensures Consumed(ks, xfers, off, bytes, r)
    decreases ks
  {
    if ks != [] {
      var (one, more) := FirstRead(ks, xfers, off, bytes, r);
      ReadOneBack(ks[0], xfers, off, bytes, one);
      ReadIsWritten(ks[1..], xfers, one.off, one.rest, more);
      ConsumedCons(ks, xfers, off, bytes, one, more, r);
    }
  }

  lemma ConsumedCons(
    ks: seq<Kind>, xfers: seq<Transfer>, off: nat, bytes: seq<byte>, one: Read, more: ReadAll, r: ReadAll)
    requires ks != [] && KindOf(one.field) == ks[0] && Writable(one.field) && bytes == Plain(one.field) + one.rest
    requires if ks[0].KBulk? then off < |xfers| && one.field == Bulk(xfers[off]) && one.off == off + 1
             else one.off == off
    requires Consumed(ks[1..], xfers, one.off, one.rest, more)
    requires r == ReadAll([one.field] + more.fields, more.off, more.rest)
    ensures Consumed(ks, xfers, off, bytes, r)
  {
    Cons(one.field, more.fields);
    Regroup(Plain(one.field), Stream(more.fields), r.rest);
    SplitFirst(ks);
    if ks[0].KBulk? { SplitSlice(xfers, off, r.off); }
    WritableCons(one.field, more.fields);
  }

  lemma SplitFirst(ks: seq<Kind>)
    requires ks != []
    ensures ks == [ks[0]] + ks[1..]
  {}

  lemma SplitSlice(xfers: seq<Transfer>, from: nat, to: nat)
    requires from < to <= |xfers|
    ensures xfers[from..to] == [xfers[from]] + xfers[from + 1..to]
  {}

  lemma WritableCons(f: Field, fs: seq<Field>)
    requires Writable(f) && forall i | 0 <= i < |fs| :: Writable(fs[i])
    ensures forall i | 0 <= i < |[f] + fs| :: Writable(([f] + fs)[i])
  {}

  lemma Regroup(a: seq<byte>, b: seq<byte>, c: seq<byte>)
    ensures a + (b + c) == (a + b) + c
  {}

  /** What the first read of a successful sequence yields, and what the reads after it do. */
  ghost function FirstRead(
    ks: seq<Kind>, xfers: seq<Transfer>, off: nat, bytes: seq<byte>, r: ReadAll): (first: (Read, ReadAll))
    requires ks != [] && ReadFrom(ks, xfers, off, bytes) == Some(r)
    ensures ReadOne(ks[0], xfers, off, bytes) == Some(first.0)
    ensures ReadFrom(ks[1..], xfers, first.0.off, first.0.rest) == Some(first.1)
    ensures r == ReadAll([first.0.field] + first.1.fields, first.1.off, first.1.rest)
  {
    var one := ReadOne(ks[0], xfers, off, bytes).value;
    (one, ReadFrom(ks[1..], xfers, one.off, one.rest).value)
  }

  lemma Cons(f: Field, fs: seq<Field>)
    ensures Kinds([f] + fs) == [KindOf(f)] + Kinds(fs) && Stream([f] + fs) == Plain(f) + Stream(fs)
    ensures Bulks([f] + fs) == (if f.Bulk? then [f.t] else []) + Bulks(fs)
  {
    assert ([f] + fs)[1..] == fs;
  }

  // ---------------------------------------------------------------- the archive objects

  /** Writing field `i` moves it from the fields still to come into the archive. */
  lemma Advance(fields: seq<Field>, i: nat, node: DomainId, xfers: seq<Transfer>, stream: seq<byte>)
    requires i < |fields|
    ensures
      var f := fields[i];
      && (if f.Bulk? then xfers + [f.t.(node := node)] else xfers) + Transfers(fields[i + 1..], node)
         == xfers + Transfers(fields[i..], node)
      && (if f.Bulk? then stream else stream + Plain(f)) + Stream(fields[i + 1..]) == stream + Stream(fields[i..])
  {
    assert fields[i..][0] == fields[i] && fields[i..][1..] == fields[i + 1..];
  }

  class OutputArchive {
    const node: DomainId
    var xfers: seq<Transfer>
    var stream: seq<byte>

    constructor (node: DomainId)
      ensures this.node == node && xfers == [] && stream == []
    {
      this.node := node;
      xfers, stream := [], [];
    }

    method Serialize(fields: seq<Field>)
      modifies this
      ensures xfers == old(xfers) + Transfers(fields, node)
      ensures stream == old(stream) + Stream(fields)
    {
      var i := 0;
      while i < |fields|
        invariant 0 <= i <= |fields|
        invariant xfers + Transfers(fields[i..], node) == old(xfers) + Transfers(fields, node)
        invariant stream + Stream(fields[i..]) == old(stream) + Stream(fields)
      {
        Advance(fields, i, node, xfers, stream);
        if fields[i].Bulk? {
          xfers := xfers + [fields[i].t.(node := node)];
        } else {
          stream := stream + Plain(fields[i]);
        }
        i := i + 1;
      }
    }

    method Get() returns (packed: seq<Transfer>)
      modifies this
      ensures packed == old(xfers) + [Transfer({ReceiverRead, FreeData}, old(stream), node)]
      ensures xfers == []
    {
      packed := xfers + [Transfer({ReceiverRead, FreeData}, stream, node)];
      xfers := [];
    }
  }

  class InputArchive {
    var xfers: seq<Transfer>
    var rest: seq<byte>
    var off: nat

    constructor (packed: seq<Transfer>)
      requires packed != []
      ensures xfers == packed && off == 0 && rest == packed[|packed| - 1].data
    {
      xfers, off := packed, 0;
      rest := packed[|packed| - 1].data;
    }

    /** The values read, or None once a read runs past the end. */
    method Deserialize(ks: seq<Kind>) returns (fields: Option<seq<Field>>)
      modifies this
      ensures
        var r := ReadFrom(ks, old(xfers), old(off), old(rest));
        && (fields.Some? <==> r.Some?)
        && (r.Some? ==> fields.value == r.value.fields && off == r.value.off && rest == r.value.rest)
    {
      var done: seq<Field> := [];
      for i := 0 to |ks|
        invariant xfers == old(xfers)
        invariant
          var r, r0 := ReadFrom(ks[i..], xfers, off, rest), ReadFrom(ks, old(xfers), old(off), old(rest));
          && (r.Some? <==> r0.Some?)
          && (r.Some? ==> r0.value == ReadAll(done + r.value.fields, r.value.off, r.value.rest))
      {
        assert ks[i..][0] == ks[i] && ks[i..][1..] == ks[i + 1..];
        var one := ReadOne(ks[i], xfers, off, rest);
        if one.None? {
          return None;
        }
        done, off, rest := done + [one.value.field], one.value.off, one.value.rest;
      }
      fields := Some(done);
    }
  }

  // ---------------------------------------------------------------- the group key

  /** LocalSerialize empties its buffer, then the lane id is appended. */
  function GroupKey(filledByGetGroup: seq<byte>, laneId: u32): seq<byte> {
    var emptied := filledByGetGroup[..0];
    emptied + Put(laneId, 4)
  }

  /** Whatever a task's GetGroup wrote, the key of the group table is the lane id and nothing else. */
  lemma GroupKeyIsLaneId(g1: seq<byte>, l1: u32, g2: seq<byte>, l2: u32)
    ensures GroupKey(g1, l1) == GroupKey(g2, l2) <==> l1 == l2
  {
    Widths();
    PutTake(l1, 4);
    PutTake(l2, 4);
    assert GroupKey(g1, l1) == Put(l1, 4) && GroupKey(g2, l2) == Put(l2, 4);
  }
}
