/** The message that starts a session: its party list and its arguments. */
module StartMessages {
  import opened Basics
  import opened PeerOrder
  import opened Peersets
  import opened Streams
  import BufIo
  import Varint

  datatype StartMsg = StartMsg(parties: Peerset, body: Bytes)

  /** The four chunks written, in order. */
  function PeersetBytes(m: StartMsg): Bytes
    requires |m.parties.peers| <= |m.parties.indexes|
  {
    Flat(m.parties.peers, m.parties.indexes)
  }

  function Wire(m: StartMsg): Bytes
    requires |m.parties.peers| <= |m.parties.indexes|
  {
    Varint.Encode(|PeersetBytes(m)|) + PeersetBytes(m) + Varint.Encode(|m.body|) + m.body
  }

  /** What encoding returns: the writer's buffer, without what the writer has
      already passed on. */
  function Written(m: StartMsg): Bytes
    requires |m.parties.peers| <= |m.parties.indexes|
  {
    var b1 := BufIo.Buffered([], Varint.Encode(|PeersetBytes(m)|));
    var b2 := BufIo.Buffered(b1, PeersetBytes(m));
    var b3 := BufIo.Buffered(b2, Varint.Encode(|m.body|));
    BufIo.Buffered(b3, m.body)
  }

  method ToBytes(m: StartMsg) returns (b: Bytes)
    requires |m.parties.peers| <= |m.parties.indexes|
    ensures b == Written(m)
  {
    var io := new BufIo.BufWriter();
    var peersetBytes := Peersets.ToBytes(m.parties);
    io.WriteAll(Varint.Encode(|peersetBytes|));
    io.WriteAll(peersetBytes);
    io.WriteAll(Varint.Encode(|m.body|));
    io.WriteAll(m.body);
    return io.buffer;
  }

  /** The largest buffer the allocator can be asked for; a longer one is a panic. */
  const MAX_ALLOC: nat := 0x7FFF_FFFF_FFFF_FFFF

  /** A payload behind its length, and what follows it. */
  function Part(b: Bytes): (r: Outcome<Option<(Bytes, Bytes)>>)
    ensures r.Done? && r.value.Some? ==> |r.value.value.0| + |r.value.value.1| < |b|
  {
    match Varint.Decode(b, Varint.U64)
    case Err(_) => Done(None)
    case Ok(len) =>
      var rest := b[len.used..];
      if len.value > MAX_ALLOC then Panicked
      else if len.value > |rest| then Done(None)
      else Done(Some((rest[..len.value], rest[len.value..])))
  }

  /** The two payloads of a start message; bytes after them are ignored. */
  function Parts(b: Bytes): (r: Outcome<Option<(Bytes, Bytes)>>) {
    match Part(b)
    case Panicked => Panicked
    case Done(None) => Done(None)
    case Done(Some((peerset, rest))) =>
      match Part(rest)
      case Panicked => Panicked
      case Done(None) => Done(None)
      case Done(Some((body, _))) => Done(Some((peerset, body)))
  }

  /** Decoding at a node: an error for a truncated message, a panic for a bad peer id
      or a length no buffer can have. */
  function Parsed(b: Bytes, local: PeerId, valid: PeerId -> bool): (r: Outcome<Option<StartMsg>>) {
    match Parts(b)
    case Panicked => Panicked
    case Done(None) => Done(None)
    case Done(Some((peerset, body))) =>
      match Decoded(peerset, local, valid)
      case Panicked => Panicked
      case Done(parties) => Done(Some(StartMsg(parties, body)))
  }

  method ReadPart(io: ByteStream) returns (r: Outcome<Option<Bytes>>)
    requires io.Valid()
    modifies io`pos
    ensures io.Valid()
    ensures match Part(old(io.Remaining()))
            case Panicked => r == Panicked
            case Done(None) => r == Done(None)
            case Done(Some((payload, rest))) => r == Done(Some(payload)) && io.Remaining() == rest
  {
    var length := io.ReadVarint(Varint.U64);
    if length.Err? { return Done(None); }
    if length.value > MAX_ALLOC { return Panicked; }
    var payload := io.ReadExact(length.value);
    r := Done(payload);
  }

  method FromBytes(b: Bytes, local: PeerId, valid: PeerId -> bool) returns (r: Outcome<Option<StartMsg>>)
    ensures r == Parsed(b, local, valid)
  {
    var io := new ByteStream(b);
    assert io.Remaining() == b;
    var peersetBuffer := ReadPart(io);
    if peersetBuffer.Panicked? { return Panicked; }
    if peersetBuffer.value.None? { return Done(None); }
    var body := ReadPart(io);
    if body.Panicked? { return Panicked; }
    if body.value.None? { return Done(None); }
    var parties := Peersets.FromBytes(peersetBuffer.value.value, local, valid);
    match parties {
      case Panicked => return Panicked;
      case Done(p) => return Done(Some(StartMsg(p, body.value.value)));
    }
  }

  /** A proposal carries an empty payload; it never decodes as a start message. */
  lemma EmptyNeverParses(local: PeerId, valid: PeerId -> bool)
    ensures Parsed([], local, valid) == Done(None)
  {
  }

  /** A peerset as `New` builds it, apart from its size. */
  ghost predicate WellFormed(p: Peerset, valid: PeerId -> bool) {
    && Ids(p.peers)
    && Sorted(p.peers)
    && |p.indexes| == |p.peers|
    && (forall i :: 0 <= i < |p.indexes| ==> p.indexes[i] < 256)
    && (forall x :: x in p.peers ==> valid(x))
  }

  lemma PartOfFramed(payload: Bytes, rest: Bytes)
    requires |payload| < Varint.U64
    ensures Part(Varint.Encode(|payload|) + payload + rest)
         == if |payload| <= MAX_ALLOC then Done(Some((payload, rest))) else Panicked
  {
    var c := Varint.Encode(|payload|);
    SumAssociates(c, payload, rest);
    Varint.RoundTrip(|payload|, payload + rest, Varint.U64);
    SumParts(c, payload + rest);
    SumParts(payload, rest);
  }

  lemma PartsOfWire(p: Bytes, body: Bytes)
    requires |p| <= MAX_ALLOC && |body| <= MAX_ALLOC
    ensures Parts(Varint.Encode(|p|) + p + Varint.Encode(|body|) + body) == Done(Some((p, body)))
  {
    var c1, c3 := Varint.Encode(|p|), Varint.Encode(|body|);
    assert c1 + p + c3 + body == c1 + p + (c3 + body);
    PartOfFramed(p, c3 + body);
    assert c3 + body == c3 + body + [];
    PartOfFramed(body, []);
  }

  /** A body on its own behind its length prefix is no start message. */
  lemma BodyOnlyNeverParses(body: Bytes)
    requires |body| < Varint.U64
    ensures !(Parts(Varint.Encode(|body|) + body).Done? && Parts(Varint.Encode(|body|) + body).value.Some?)
  {
    var c := Varint.Encode(|body|);
    assert c + body == c + body + [];
    PartOfFramed(body, []);
  }

  lemma PrefixLength(p: Peerset)
    requires Ids(p.peers) && |p.peers| <= |p.indexes|
    requires |Flat(p.peers, p.indexes)| < BufIo.CAPACITY
    ensures |Flat(p.peers, p.indexes)| <= BufIo.CAPACITY - 2
    ensures |Varint.Encode(|Flat(p.peers, p.indexes)|)| <= 2
  {
    FlatAt(p.peers, p.indexes, 0);
    Varint.EncodeLength(|Flat(p.peers, p.indexes)|, 2);
    assert Varint.Pow128(2) == 128 * Varint.Pow128(1) == 16384;
  }

  /** The buffer holds the whole message exactly when it fits. Otherwise the party
      list is gone from it: what is left is the body with its length, if the list had
      to make room for that length, or the body alone, or nothing of a body as large
      as the buffer. */
  lemma WrittenOrLost(m: StartMsg)
    requires Ids(m.parties.peers) && |m.parties.peers| <= |m.parties.indexes|
    requires |PeersetBytes(m)| < Varint.U64 && |m.body| < Varint.U64
    ensures |Wire(m)| <= BufIo.CAPACITY ==> Written(m) == Wire(m)
    ensures |Wire(m)| > BufIo.CAPACITY ==>
      var (c, rest) := (Varint.Encode(|m.body|), |Wire(m)| - |m.body|);
      Written(m) == if |m.body| >= BufIo.CAPACITY then []
                    else if rest > BufIo.CAPACITY && |c| + |m.body| <= BufIo.CAPACITY then c + m.body
                    else m.body
  {
    var c1, c2, c3 := Varint.Encode(|PeersetBytes(m)|), PeersetBytes(m), Varint.Encode(|m.body|);
    Varint.U64Length(|c2|);
    Varint.U64Length(|m.body|);
    var b1 := BufIo.Buffered([], c1);
    assert b1 == c1;
    var b2 := BufIo.Buffered(b1, c2);
    if |c2| < BufIo.CAPACITY {
      PrefixLength(m.parties);
      assert b2 == c1 + c2;
    } else {
      assert b2 == [];
    }
    var b3 := BufIo.Buffered(b2, c3);
    assert b3 == b2 + c3 || b3 == c3;
    assert [] + c3 == c3;
  }

  /** A start message cut short anywhere is a decoding error. */
  lemma TruncatedNeverParses(m: StartMsg, k: nat, local: PeerId, valid: PeerId -> bool)
    requires |m.parties.peers| <= |m.parties.indexes|
    requires |PeersetBytes(m)| <= MAX_ALLOC && |m.body| <= MAX_ALLOC && k < |Wire(m)|
    ensures Parsed(Wire(m)[..k], local, valid) == Done(None)
  {
    SumAssociates(Varint.Encode(|PeersetBytes(m)|) + PeersetBytes(m), Varint.Encode(|m.body|), m.body);
    PartsCut(PeersetBytes(m), m.body, k);
  }

  /** A payload behind its length. */
  function BehindLength(payload: Bytes): Bytes {
    Varint.Encode(|payload|) + payload
  }

  lemma PartsCut(p: Bytes, body: Bytes, k: nat)
    requires |p| <= MAX_ALLOC && |body| <= MAX_ALLOC && k < |BehindLength(p) + BehindLength(body)|
    ensures Parts((BehindLength(p) + BehindLength(body))[..k]) == Done(None)
  {
    var (x, y) := (BehindLength(p), BehindLength(body));
    CutSum(x, y, k);
    if k < |x| {
      PartCut(p, k);
      FirstPartFails(x[..k]);
      assert Parts(x[..k]) == Done(None);
    } else {
      var k1 := k - |x|;
      PartCut(body, k1);
      assert Part(y[..k1]) == Done(None);
      SecondPartFails(p, y[..k1]);
      assert Parts(x + y[..k1]) == Done(None);
    }
  }

  lemma FirstPartFails(b: Bytes)
    requires Part(b) == Done(None)
    ensures Parts(b) == Done(None)
  {
  }

  lemma SecondPartFails(p: Bytes, rest: Bytes)
    requires |p| <= MAX_ALLOC && Part(rest) == Done(None)
    ensures Parts(BehindLength(p) + rest) == Done(None)
  {
    PartOfFramed(p, rest);
  }

  lemma PartCut(payload: Bytes, k: nat)
    requires |payload| <= MAX_ALLOC && k < |BehindLength(payload)|
    ensures Part(BehindLength(payload)[..k]) == Done(None)
  {
    var c := Varint.Encode(|payload|);
    CutSum(c, payload, k);
    if k < |c| {
      Varint.CutShort(|payload|, k, Varint.U64);
    } else {
      var rest := payload[..k - |c|];
      assert BehindLength(payload)[..k] == c + rest;
      Varint.RoundTrip(|payload|, rest, Varint.U64);
      SumParts(c, rest);
    }
  }

  lemma OverlongNeverReturns(m: StartMsg, local: PeerId, valid: PeerId -> bool)
    requires Ids(m.parties.peers) && |m.parties.peers| <= |m.parties.indexes|
    requires |PeersetBytes(m)| < Varint.U64 && |m.body| < Varint.U64
    requires |Wire(m)| > BufIo.CAPACITY
    ensures Parsed(Written(m), local, valid) != Done(Some(m))
  {
    WrittenOrLost(m);
    BodyOnlyNeverParses(m.body);
  }

  lemma FittingReturns(m: StartMsg, local: PeerId, valid: PeerId -> bool)
    requires WellFormed(m.parties, valid)
    requires |PeersetBytes(m)| < Varint.U64 && |m.body| < Varint.U64
    requires |Wire(m)| <= BufIo.CAPACITY
    ensures Parsed(Written(m), local, valid) == Done(Some(m.(parties := m.parties.(local := local))))
  {
    WrittenOrLost(m);
    PartsOfWire(PeersetBytes(m), m.body);
    FlatAt(m.parties.peers, m.parties.indexes, 0);
    EncodableRoundTrips(m.parties, local, valid);
  }

  /** The round trip of a start message holds exactly when it fits the writer's buffer. */
  lemma RoundTrip(m: StartMsg, valid: PeerId -> bool)
    requires WellFormed(m.parties, valid)
    requires |PeersetBytes(m)| < Varint.U64 && |m.body| < Varint.U64
    ensures Parsed(Written(m), m.parties.local, valid) == Done(Some(m)) <==> |Wire(m)| <= BufIo.CAPACITY
  {
    if |Wire(m)| <= BufIo.CAPACITY {
      FittingReturns(m, m.parties.local, valid);
    } else {
      OverlongNeverReturns(m, m.parties.local, valid);
    }
  }
}
