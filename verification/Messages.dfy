/** The wire form of requests and responses. */
module Messages {
  import opened Basics
  import opened Streams
  import Varint

  type u64 = x: nat | x < Varint.U64

  datatype MessageType = Coordination | Computation

  datatype MessageContext = MessageContext(messageType: MessageType, sessionId: u64, protocolId: u64)

  datatype WireMessage = WireMessage(context: MessageContext, payload: Bytes, isBroadcast: bool)

  datatype IoError = InvalidInput | UnexpectedEof

  /** An unknown message type panics. */
  datatype Read<+T> = Message(value: T) | Failure(error: IoError) | Panic

  /** A response carries a payload or the refusal to give one. */
  type Response = Option<Bytes>

  function TypeCode(t: MessageType): nat {
    if t.Coordination? then 0 else 1
  }

  function Flag(b: bool): nat {
    if b then 1 else 0
  }

  function Framed(payload: Bytes): Bytes {
    Varint.Encode(|payload|) + payload
  }

  function EncodeKind(t: nat, flag: nat): Bytes {
    Varint.Encode(t) + Varint.Encode(flag)
  }

  function EncodeIds(session: nat, protocol: nat): Bytes {
    Varint.Encode(session) + Varint.Encode(protocol)
  }

  function EncodeRequest(m: WireMessage): Bytes {
    EncodeKind(TypeCode(m.context.messageType), Flag(m.isBroadcast))
    + EncodeIds(m.context.sessionId, m.context.protocolId)
    + Framed(m.payload)
  }

  function EncodeResponse(r: Response): Bytes {
    match r
    case Some(payload) => Framed(payload)
    case None => []
  }

  /** A length-prefixed payload within the limit, and the bytes it took. */
  function DecodeFramed(b: Bytes, max: nat): (r: (Read<Bytes>, nat))
    ensures r.0.Message? ==> r.1 <= |b|
  {
    match Varint.Decode(b, Varint.U64)
    case Err(_) => (Failure(InvalidInput), 0)
    case Ok(len) =>
      if len.value > max then (Failure(InvalidInput), 0)
      else if len.value > |b| - len.used then (Failure(UnexpectedEof), 0)
      else (Message(b[len.used..][..len.value]), len.used + len.value)
  }

  /** Two numbers in a row, and the bytes they took. */
  function DecodePair(b: Bytes, bound: nat): (r: Option<(nat, nat, nat)>)
    ensures r.Some? ==> r.value.0 < bound && r.value.1 < bound && r.value.2 <= |b|
  {
    match Varint.Decode(b, bound)
    case Err(_) => None
    case Ok(x) =>
      match Varint.Decode(b[x.used..], bound)
      case Err(_) => None
      case Ok(y) => Some((x.value, y.value, x.used + y.used))
  }

  /** The message type and the broadcast flag. The type is looked at before the flag is read. */
  function DecodeKind(b: Bytes): (r: (Read<(MessageType, bool)>, nat))
    ensures r.1 <= |b|
  {
    match Varint.Decode(b, Varint.U8)
    case Err(_) => (Failure(InvalidInput), 0)
    case Ok(t) =>
      if t.value > 1 then (Panic, 0) else
      match Varint.Decode(b[t.used..], Varint.U8)
      case Err(_) => (Failure(InvalidInput), 0)
      case Ok(flag) =>
        (Message((if t.value == 0 then Coordination else Computation, flag.value != 0)), t.used + flag.used)
  }

  function DecodeRequest(b: Bytes, max: nat): (r: (Read<WireMessage>, nat)) {
    match DecodeKind(b)
    case (Panic, _) => (Panic, 0)
    case (Failure(e), _) => (Failure(e), 0)
    case (Message((messageType, flag)), used0) =>
      match DecodePair(b[used0..], Varint.U64)
      case None => (Failure(InvalidInput), 0)
      case Some((session, protocol, used1)) =>
        match DecodeFramed(b[used0..][used1..], max)
        case (Panic, _) => (Panic, 0)
        case (Failure(e), _) => (Failure(e), 0)
        case (Message(payload), used2) =>
          (Message(WireMessage(MessageContext(messageType, session, protocol), payload, flag)), used0 + used1 + used2)
  }

  /** A stream that ends before a length is complete is a refusal. */
  function DecodeResponse(b: Bytes, max: nat): (r: (Read<Response>, nat)) {
    match Varint.Decode(b, Varint.U64)
    case Err(Insufficient) => (Message(None), 0)
    case Err(_) => (Failure(InvalidInput), 0)
    case Ok(len) =>
      if len.value > max then (Failure(InvalidInput), 0)
      else if len.value > |b| - len.used then (Failure(UnexpectedEof), 0)
      else (Message(Some(b[len.used..][..len.value])), len.used + len.value)
  }

  class GenericCodec {
    const maxRequestSize: u64
    const maxResponseSize: u64

    constructor (maxRequestSize: u64, maxResponseSize: u64)
      ensures this.maxRequestSize == maxRequestSize && this.maxResponseSize == maxResponseSize
    {
      this.maxRequestSize := maxRequestSize;
      this.maxResponseSize := maxResponseSize;
    }

    method WriteRequest(io: ByteStream, m: WireMessage)
      requires io.Valid()
      modifies io
      ensures io.Valid() && io.closed && io.pos == old(io.pos)
      ensures io.data == old(io.data) + EncodeRequest(m)
    {
      io.WriteAll(Varint.Encode(TypeCode(m.context.messageType)));
      io.WriteAll(Varint.Encode(Flag(m.isBroadcast)));
      io.WriteAll(Varint.Encode(m.context.sessionId));
      io.WriteAll(Varint.Encode(m.context.protocolId));
      io.WriteAll(Varint.Encode(|m.payload|));
      io.WriteAll(m.payload);
      io.Close();
    }

    method WriteResponse(io: ByteStream, r: Response)
      requires io.Valid()
      modifies io
      ensures io.Valid() && io.closed && io.pos == old(io.pos)
      ensures io.data == old(io.data) + EncodeResponse(r)
    {
      if r.Some? {
        io.WriteAll(Varint.Encode(|r.value|));
        io.WriteAll(r.value);
      }
      io.Close();
    }

    method ReadKind(io: ByteStream) returns (r: Read<(MessageType, bool)>)
      requires io.Valid()
      modifies io`pos
      ensures io.Valid()
      ensures r == DecodeKind(old(io.Remaining())).0
      ensures r.Message? ==> var used := DecodeKind(old(io.Remaining())).1;
        io.pos == old(io.pos) + used && io.Remaining() == old(io.Remaining())[used..]
    {
      var t := io.ReadVarint(Varint.U8);
      if t.Err? { return Failure(InvalidInput); }
      if t.value > 1 { return Panic; }
      var messageType := if t.value == 0 then Coordination else Computation;
      var flag := io.ReadVarint(Varint.U8);
      if flag.Err? { return Failure(InvalidInput); }
      return Message((messageType, flag.value != 0));
    }

    method ReadIds(io: ByteStream) returns (r: Option<(nat, nat)>)
      requires io.Valid()
      modifies io`pos
      ensures io.Valid()
      ensures match DecodePair(old(io.Remaining()), Varint.U64)
              case None => r == None
              case Some((x, y, used)) =>
                r == Some((x, y)) && io.pos == old(io.pos) + used && io.Remaining() == old(io.Remaining())[used..]
    {
      var session := io.ReadVarint(Varint.U64);
      if session.Err? { return None; }
      var protocol := io.ReadVarint(Varint.U64);
      if protocol.Err? { return None; }
      return Some((session.value, protocol.value));
    }

    method ReadFramed(io: ByteStream, max: nat) returns (r: Read<Bytes>)
      requires io.Valid()
      modifies io`pos
      ensures io.Valid()
      ensures r == DecodeFramed(old(io.Remaining()), max).0
      ensures r.Message? ==> io.pos == old(io.pos) + DecodeFramed(old(io.Remaining()), max).1
    {
      var length := io.ReadVarint(Varint.U64);
      if length.Err? { return Failure(InvalidInput); }
      if length.value > max { return Failure(InvalidInput); }
      var buffer := io.ReadExact(length.value);
      r := match buffer case Some(payload) => Message(payload) case None => Failure(UnexpectedEof);
    }

    method ReadRequest(io: ByteStream) returns (r: Read<WireMessage>)
      requires io.Valid()
      modifies io`pos
      ensures io.Valid()
      ensures r == DecodeRequest(old(io.Remaining()), maxRequestSize).0
      ensures r.Message? ==> io.pos == old(io.pos) + DecodeRequest(old(io.Remaining()), maxRequestSize).1
    {
      var kind := ReadKind(io);
      if kind.Panic? { return Panic; }
      if kind.Failure? { return Failure(kind.error); }
      var ids := ReadIds(io);
      if ids.None? { return Failure(InvalidInput); }
      var payload := ReadFramed(io, maxRequestSize);
      match payload {
        case Panic => return Panic;
        case Failure(e) => return Failure(e);
        case Message(buffer) =>
          return Message(WireMessage(MessageContext(kind.value.0, ids.value.0, ids.value.1), buffer, kind.value.1));
      }
    }

    method ReadResponse(io: ByteStream) returns (r: Read<Response>)
      requires io.Valid()
      modifies io`pos
      ensures io.Valid()
      ensures r == DecodeResponse(old(io.Remaining()), maxResponseSize).0
      ensures r.Message? && r.value.Some? ==>
        io.pos == old(io.pos) + DecodeResponse(old(io.Remaining()), maxResponseSize).1
    {
      var length := io.ReadVarint(Varint.U64);
      if length.Err? {
        return if length.error.Insufficient? then Message(None) else Failure(InvalidInput);
      }
      if length.value > maxResponseSize { return Failure(InvalidInput); }
      var buffer := io.ReadExact(length.value);
      r := match buffer case Some(payload) => Message(Some(payload)) case None => Failure(UnexpectedEof);
    }
  }

  /** A length and what follows it. */
  lemma FramedForm(len: nat, body: Bytes, max: nat)
    requires len < Varint.U64
    ensures DecodeFramed(Varint.Encode(len) + body, max)
         == if len > max then (Failure(InvalidInput), 0)
            else if len > |body| then (Failure(UnexpectedEof), 0)
            else (Message(body[..len]), |Varint.Encode(len)| + len)
  {
    Varint.RoundTrip(len, body, Varint.U64);
    assert (Varint.Encode(len) + body)[|Varint.Encode(len)|..] == body;
  }

  lemma FramedRoundTrip(payload: Bytes, rest: Bytes, max: nat)
    requires |payload| < Varint.U64
    ensures DecodeFramed(Framed(payload) + rest, max)
         == if |payload| <= max then (Message(payload), |Framed(payload)|) else (Failure(InvalidInput), 0)
  {
    assert Framed(payload) + rest == Varint.Encode(|payload|) + (payload + rest);
    FramedForm(|payload|, payload + rest, max);
  }

  lemma PairRoundTrip(x: nat, y: nat, rest: Bytes, bound: nat)
    requires x < bound && y < bound
    ensures DecodePair(EncodeIds(x, y) + rest, bound) == Some((x, y, |EncodeIds(x, y)|))
  {
    var fx, fy := Varint.Encode(x), Varint.Encode(y);
    assert EncodeIds(x, y) + rest == fx + (fy + rest);
    Varint.RoundTrip(x, fy + rest, bound);
    assert (fx + (fy + rest))[|fx|..] == fy + rest;
    Varint.RoundTrip(y, rest, bound);
  }

  /** A type and a flag of one byte each, and what follows them. */
  lemma KindForm(t: nat, flag: nat, rest: Bytes)
    requires t < Varint.U8 && flag < Varint.U8
    ensures DecodeKind(EncodeKind(t, flag) + rest)
         == if t > 1 then (Panic, 0)
            else (Message((if t == 0 then Coordination else Computation, flag != 0)), |EncodeKind(t, flag)|)
  {
    var ft, ff := Varint.Encode(t), Varint.Encode(flag);
    assert EncodeKind(t, flag) + rest == ft + (ff + rest);
    Varint.RoundTrip(t, ff + rest, Varint.U8);
    assert (ft + (ff + rest))[|ft|..] == ff + rest;
    Varint.RoundTrip(flag, rest, Varint.U8);
  }

  lemma KindRoundTrip(t: MessageType, flag: bool, rest: Bytes)
    ensures DecodeKind(EncodeKind(TypeCode(t), Flag(flag)) + rest)
         == (Message((t, flag)), |EncodeKind(TypeCode(t), Flag(flag))|)
  {
    KindForm(TypeCode(t), Flag(flag), rest);
  }

  lemma CutInThree(x: Bytes, y: Bytes, z: Bytes, rest: Bytes)
    ensures x + y + z + rest == x + (x + y + z + rest)[|x|..]
    ensures (x + y + z + rest)[|x|..] == y + (z + rest)
    ensures (x + y + z + rest)[|x|..][|y|..] == z + rest
  {
    var b := x + y + z + rest;
    assert b == x + (y + (z + rest));
    assert b[|x|..] == y + (z + rest);
  }

  function KindOf(m: WireMessage): Bytes {
    EncodeKind(TypeCode(m.context.messageType), Flag(m.isBroadcast))
  }

  function IdsOf(m: WireMessage): Bytes {
    EncodeIds(m.context.sessionId, m.context.protocolId)
  }

  /** The type and flag come back first. */
  lemma RequestHead(m: WireMessage, rest: Bytes)
    ensures var b := EncodeRequest(m) + rest;
      && |KindOf(m)| <= |b| && b[|KindOf(m)|..] == IdsOf(m) + (Framed(m.payload) + rest)
      && DecodeKind(b) == (Message((m.context.messageType, m.isBroadcast)), |KindOf(m)|)
  {
    var b := EncodeRequest(m) + rest;
    CutInThree(KindOf(m), IdsOf(m), Framed(m.payload), rest);
    KindRoundTrip(m.context.messageType, m.isBroadcast, b[|KindOf(m)|..]);
  }

  /** Then session and protocol, and the payload behind its length is next. */
  lemma RequestIds(m: WireMessage, rest: Bytes)
    ensures var b := EncodeRequest(m) + rest;
      && |KindOf(m)| <= |b| && |IdsOf(m)| <= |b[|KindOf(m)|..]|
      && DecodePair(b[|KindOf(m)|..], Varint.U64) == Some((m.context.sessionId, m.context.protocolId, |IdsOf(m)|))
      && b[|KindOf(m)|..][|IdsOf(m)|..] == Framed(m.payload) + rest
  {
    CutInThree(KindOf(m), IdsOf(m), Framed(m.payload), rest);
    PairRoundTrip(m.context.sessionId, m.context.protocolId, Framed(m.payload) + rest, Varint.U64);
  }

  /** Reading a written request gives it back and takes exactly its bytes,
      whatever follows, when the payload is within the limit; a larger one is
      refused. */
  lemma RequestRoundTrip(m: WireMessage, rest: Bytes, max: nat)
    requires |m.payload| < Varint.U64
    ensures DecodeRequest(EncodeRequest(m) + rest, max)
         == if |m.payload| <= max then (Message(m), |EncodeRequest(m)|) else (Failure(InvalidInput), 0)
  {
    RequestHead(m, rest);
    RequestIds(m, rest);
    FramedRoundTrip(m.payload, rest, max);
    var (b, u0, u1) := (EncodeRequest(m) + rest, |KindOf(m)|, |IdsOf(m)|);
    if |m.payload| <= max {
      RequestFromParts(b, max, m.context, m.isBroadcast, u0, u1, Message(m.payload), |Framed(m.payload)|);
    } else {
      RequestFromParts(b, max, m.context, m.isBroadcast, u0, u1, Failure(InvalidInput), 0);
    }
  }

  lemma RequestFromParts(b: Bytes, max: nat, c: MessageContext, flag: bool, u0: nat, u1: nat, r: Read<Bytes>, u2: nat)
    requires DecodeKind(b) == (Message((c.messageType, flag)), u0)
    requires DecodePair(b[u0..], Varint.U64) == Some((c.sessionId, c.protocolId, u1))
    requires DecodeFramed(b[u0..][u1..], max) == (r, u2)
    ensures DecodeRequest(b, max)
         == match r
            case Message(payload) => (Message(WireMessage(c, payload, flag)), u0 + u1 + u2)
            case Failure(e) => (Failure(e), 0)
            case Panic => (Panic, 0)
  {
  }

  /** Five numbers and then bytes: the wire layout of a request. */
  function Fields(kind: nat, flag: nat, session: nat, protocol: nat, length: nat, body: Bytes): Bytes {
    Concat([Varint.Encode(kind), Varint.Encode(flag), Varint.Encode(session), Varint.Encode(protocol),
            Varint.Encode(length), body])
  }

  lemma FieldsInParts(kind: nat, flag: nat, session: nat, protocol: nat, length: nat, body: Bytes)
    ensures Fields(kind, flag, session, protocol, length, body)
         == EncodeKind(kind, flag) + (EncodeIds(session, protocol) + (Varint.Encode(length) + body))
  {
    var (a, b, c, d, e) := (Varint.Encode(kind), Varint.Encode(flag), Varint.Encode(session), Varint.Encode(protocol),
                            Varint.Encode(length));
    assert Concat([a, b, c, d, e, body]) == a + (b + (c + (d + (e + (body + []))))) by {
      assert Concat([body]) == body + Concat([]);
      assert Concat([e, body]) == e + Concat([body]);
      assert Concat([d, e, body]) == d + Concat([e, body]);
      assert Concat([c, d, e, body]) == c + Concat([d, e, body]);
      assert Concat([b, c, d, e, body]) == b + Concat([c, d, e, body]);
    }
    assert body + [] == body;
    SumAssociates(a, b, c + (d + (e + body)));
    SumAssociates(c, d, e + body);
  }

  /** What the writer puts where: 0 or 1 for the type, 1 or 0 for the flag, session,
      protocol, the payload's length, the payload. */
  lemma RequestLayout(m: WireMessage)
    ensures EncodeRequest(m)
         == Fields(if m.context.messageType == Coordination then 0 else 1, if m.isBroadcast then 1 else 0,
                   m.context.sessionId, m.context.protocolId, |m.payload|, m.payload)
  {
    FieldsInParts(TypeCode(m.context.messageType), Flag(m.isBroadcast), m.context.sessionId, m.context.protocolId,
                  |m.payload|, m.payload);
    SumAssociates(KindOf(m), IdsOf(m), Framed(m.payload));
  }

  /** What the reader makes of any five numbers and bytes after them: a type other than
      0 or 1 panics, a length over the limit or past the end is an error, any flag but
      0 is a broadcast, and the payload is as many of the bytes as the length says. */
  lemma FieldsRead(kind: nat, flag: nat, session: nat, protocol: nat, length: nat, body: Bytes, max: nat)
    requires kind < Varint.U8 && flag < Varint.U8
    requires session < Varint.U64 && protocol < Varint.U64 && length < Varint.U64
    ensures DecodeRequest(Fields(kind, flag, session, protocol, length, body), max).0
         == if kind > 1 then Panic
            else if length > max then Failure(InvalidInput)
            else if length > |body| then Failure(UnexpectedEof)
            else Message(WireMessage(MessageContext(if kind == 0 then Coordination else Computation, session, protocol),
                                     body[..length], flag != 0))
  {
    var (framed, b) := (Varint.Encode(length) + body, Fields(kind, flag, session, protocol, length, body));
    FieldsInParts(kind, flag, session, protocol, length, body);
    KindForm(kind, flag, EncodeIds(session, protocol) + framed);
    if kind <= 1 {
      var (u0, u1) := (|EncodeKind(kind, flag)|, |EncodeIds(session, protocol)|);
      SumParts(EncodeKind(kind, flag), EncodeIds(session, protocol) + framed);
      SumParts(EncodeIds(session, protocol), framed);
      PairRoundTrip(session, protocol, framed, Varint.U64);
      FramedForm(length, body, max);
      var c := MessageContext(if kind == 0 then Coordination else Computation, session, protocol);
      RequestFromParts(b, max, c, flag != 0, u0, u1, DecodeFramed(framed, max).0, DecodeFramed(framed, max).1);
    }
  }

  // ---------- streams that end early ----------

  lemma PairCut(x: nat, y: nat, k: nat, bound: nat)
    requires x < bound && y < bound && k < |EncodeIds(x, y)|
    ensures DecodePair(EncodeIds(x, y)[..k], bound) == None
  {
    var (fx, fy) := (Varint.Encode(x), Varint.Encode(y));
    CutSum(fx, fy, k);
    if k < |fx| {
      Varint.CutShort(x, k, bound);
    } else {
      var rest := fy[..k - |fx|];
      assert EncodeIds(x, y)[..k] == fx + rest;
      Varint.RoundTrip(x, rest, bound);
      SumParts(fx, rest);
      Varint.CutShort(y, k - |fx|, bound);
    }
  }

  lemma KindCut(t: MessageType, flag: bool, k: nat)
    requires k < |EncodeKind(TypeCode(t), Flag(flag))|
    ensures DecodeKind(EncodeKind(TypeCode(t), Flag(flag))[..k]) == (Failure(InvalidInput), 0)
  {
    var (ft, ff) := (Varint.Encode(TypeCode(t)), Varint.Encode(Flag(flag)));
    CutSum(ft, ff, k);
    if k < |ft| {
      Varint.CutShort(TypeCode(t), k, Varint.U8);
    } else {
      var rest := ff[..k - |ft|];
      assert EncodeKind(TypeCode(t), Flag(flag))[..k] == ft + rest;
      Varint.RoundTrip(TypeCode(t), rest, Varint.U8);
      SumParts(ft, rest);
      Varint.CutShort(Flag(flag), k - |ft|, Varint.U8);
    }
  }

  lemma FramedCut(payload: Bytes, k: nat, max: nat)
    requires |payload| < Varint.U64 && k < |Framed(payload)|
    ensures DecodeFramed(Framed(payload)[..k], max)
         == (Failure(if k < |Varint.Encode(|payload|)| || |payload| > max then InvalidInput else UnexpectedEof), 0)
  {
    var len := Varint.Encode(|payload|);
    CutSum(len, payload, k);
    if k < |len| {
      Varint.CutShort(|payload|, k, Varint.U64);
    } else {
      assert Framed(payload)[..k] == len + payload[..k - |len|];
      FramedForm(|payload|, payload[..k - |len|], max);
    }
  }

  /** A request cut short anywhere is never taken for a message: the reader reports
      the end of the stream if only the payload is short, and else invalid input. */
  lemma TruncatedRequest(m: WireMessage, k: nat, max: nat)
    requires |m.payload| < Varint.U64 && k < |EncodeRequest(m)|
    ensures DecodeRequest(EncodeRequest(m)[..k], max)
         == (Failure(if k < |EncodeRequest(m)| - |m.payload| || |m.payload| > max then InvalidInput
                     else UnexpectedEof), 0)
  {
    var (kind, ids, framed) := (KindOf(m), IdsOf(m), Framed(m.payload));
    var b := EncodeRequest(m)[..k];
    SumAssociates(kind, ids, framed);
    CutSum(kind, ids + framed, k);
    if k < |kind| {
      KindCut(m.context.messageType, m.isBroadcast, k);
    } else {
      var k1 := k - |kind|;
      var rest := (ids + framed)[..k1];
      assert b == kind + rest;
      KindRoundTrip(m.context.messageType, m.isBroadcast, rest);
      SumParts(kind, rest);
      CutSum(ids, framed, k1);
      if k1 < |ids| {
        PairCut(m.context.sessionId, m.context.protocolId, k1, Varint.U64);
      } else {
        var k2 := k1 - |ids|;
        assert rest == ids + framed[..k2];
        PairRoundTrip(m.context.sessionId, m.context.protocolId, framed[..k2], Varint.U64);
        SumParts(ids, framed[..k2]);
        FramedCut(m.payload, k2, max);
      }
    }
  }

  /** A response cut short within its length reads as a refusal; one that lacks only
      bytes of its payload is an error. */
  lemma TruncatedResponse(payload: Bytes, k: nat, max: nat)
    requires |payload| < Varint.U64 && k < |EncodeResponse(Some(payload))|
    ensures DecodeResponse(EncodeResponse(Some(payload))[..k], max).0
         == if k < |EncodeResponse(Some(payload))| - |payload| then Message(None)
            else Failure(if |payload| > max then InvalidInput else UnexpectedEof)
  {
    var len := Varint.Encode(|payload|);
    CutSum(len, payload, k);
    if k < |len| {
      Varint.CutShort(|payload|, k, Varint.U64);
    } else {
      assert EncodeResponse(Some(payload))[..k] == len + payload[..k - |len|];
      Varint.RoundTrip(|payload|, payload[..k - |len|], Varint.U64);
    }
  }

  /** No request's wire form is a prefix of another's. */
  lemma RequestsPrefixFree(a: WireMessage, b: WireMessage)
    requires |a.payload| < Varint.U64 && |b.payload| < Varint.U64
    requires EncodeRequest(a) <= EncodeRequest(b)
    ensures a == b
  {
    var rest := EncodeRequest(b)[|EncodeRequest(a)|..];
    assert EncodeRequest(b) == EncodeRequest(a) + rest;
    assert EncodeRequest(b) == EncodeRequest(b) + [];
    RequestRoundTrip(a, rest, Varint.U64);
    RequestRoundTrip(b, [], Varint.U64);
  }

  /** A payload comes back as written; a refusal is an empty, closed stream. */
  lemma ResponseRoundTrip(r: Response, rest: Bytes, max: nat)
    requires r.Some? ==> |r.value| < Varint.U64
    requires r.None? ==> rest == []
    ensures DecodeResponse(EncodeResponse(r) + rest, max)
         == if r.None? || |r.value| <= max then (Message(r), |EncodeResponse(r)|) else (Failure(InvalidInput), 0)
  {
    if r.Some? {
      var len := Varint.Encode(|r.value|);
      var b := EncodeResponse(r) + rest;
      assert b == len + (r.value + rest);
      Varint.RoundTrip(|r.value|, r.value + rest, Varint.U64);
      assert b[|len|..] == r.value + rest;
    }
  }

  /** The two ends of one stream: what one codec writes, the other reads. */
  method Exchange(codec: GenericCodec, io: ByteStream, m: WireMessage) returns (r: Read<WireMessage>)
    requires io.Valid() && io.pos == |io.data| && |m.payload| < Varint.U64
    modifies io
    ensures |m.payload| <= codec.maxRequestSize ==> r == Message(m) && io.Valid() && io.Remaining() == []
    ensures |m.payload| > codec.maxRequestSize ==> r == Failure(InvalidInput)
  {
    codec.WriteRequest(io, m);
    assert io.Remaining() == EncodeRequest(m) + [];
    RequestRoundTrip(m, [], codec.maxRequestSize);
    r := codec.ReadRequest(io);
  }
}
