/** From one party's agent to another's: the round-based translation, the routing
    by party number, the wire, the proxy's tagging, and the translation back. */
module RoutingIdentity {
  import opened Basics
  import opened PeerOrder
  import opened Peersets
  import opened Messages
  import opened Coordination
  import opened Executions
  import opened Echo
  import Sessions
  import StartMessages

  /** A protocol message: no receiver means everybody. */
  datatype Msg<M> = Msg(sender: nat, receiver: Option<nat>, body: M)

  /** The sink: the sender's number is left to the runtime. */
  function ToRuntime<M>(m: Msg<M>, ser: M -> Bytes, sent: nat): OutgoingMessage {
    OutgoingMessage(ser(m.body), match m.receiver case Some(j) => ToParty(j) case None => ToAll, Some(sent))
  }

  /** The stream. */
  function FromRuntime<M>(m: IncomingMessage, de: Bytes -> M): Msg<M> {
    Msg(m.from, match m.to case ToAll => None case ToParty(i) => Some(i), de(m.body))
  }

  const MAX_REQUEST: nat := 8 * 1024 * 1024

  /** The copies of a send on the wire, by target. */
  function Wires(s: NetworkSend): seq<(PeerId, WireMessage)> {
    match s
    case Direct(target, messageType, payload) =>
      [(target, WireMessage(MessageContext(messageType, 0, 0), payload, false))]
    case Multicast(targets, messageType, payload, _) =>
      seq(|targets|, i requires 0 <= i < |targets| =>
        (targets[i], WireMessage(MessageContext(messageType, 0, 0), payload, true)))
  }

  /** What arrives at the other end of the stream from peer `from`. */
  function Arrived(from: PeerId, bytes: Bytes, tx: nat): Option<RoomMessage> {
    match DecodeRequest(bytes, MAX_REQUEST).0
    case Message(w) => Some(RoomMessage(from, 0, w.payload, w.isBroadcast, w.context, tx))
    case Failure(_) => None
    case Panic => None
  }

  /** A node of the session: the shared list, itself at place i of it. */
  ghost predicate Member(e: Executions.State, peers: seq<PeerId>, i: nat) {
    && i < |peers| && Distinct(peers) && |peers| < U16
    && e.parties.peers == peers && e.parties.local == peers[i]
    && e.i == i && e.n == |peers|
  }

  /** What a node's proxy forwards to its computation when bytes from a peer reach it. */
  function Forwarding(parties: Peerset, from: PeerId, bytes: Bytes, tx: nat): Option<RoomMessage> {
    match Arrived(from, bytes, tx)
    case None => None
    case Some(m) =>
      match ProxyPoll(false, Some(m), parties)
      case Forwarded(tagged) => Some(tagged)
      case _ => None
  }

  lemma Arrival(from: PeerId, w: WireMessage, tx: nat)
    requires |w.payload| <= MAX_REQUEST
    ensures Arrived(from, EncodeRequest(w), tx) == Some(RoomMessage(from, 0, w.payload, w.isBroadcast, w.context, tx))
  {
    assert EncodeRequest(w) == EncodeRequest(w) + [];
    RequestRoundTrip(w, [], MAX_REQUEST);
  }

  /** The proxy recovers the sender's place from its peer id. */
  lemma Tagged(f: Executions.State, peers: seq<PeerId>, i: nat, d: nat, msg: RoomMessage)
    requires Member(f, peers, d) && i < |peers| && msg.peer == peers[i]
    ensures ProxyPoll(false, Some(msg), f.parties) == Forwarded(msg.(index := i))
  {
    IndexInverse(f.parties);
  }

  lemma OneHop(f: Executions.State, peers: seq<PeerId>, i: nat, d: nat, w: WireMessage, tx: nat)
    requires Member(f, peers, d) && i < |peers| && |w.payload| <= MAX_REQUEST
    ensures Forwarding(f.parties, peers[i], EncodeRequest(w), tx)
         == Some(RoomMessage(peers[i], i, w.payload, w.isBroadcast, w.context, tx))
  {
    Arrival(peers[i], w, tx);
    Tagged(f, peers, i, d, RoomMessage(peers[i], 0, w.payload, w.isBroadcast, w.context, tx));
  }

  // ---------- what a computation takes in ----------

  /** What the agent at place d is given for a tagged message. */
  ghost predicate HandedAs(x: IncomingMessage, m: RoomMessage, d: nat) {
    && x.from == m.index + 1 && x.body == m.payload
    && (if m.isBroadcast then x.to == ToAll else x.to == ToParty(d + 1))
  }

  /** How many of the messages are broadcasts. */
  function BroadcastsIn(ms: seq<RoomMessage>): nat {
    if ms == [] then 0
    else BroadcastsIn(ms[..|ms| - 1]) + if ms[|ms| - 1].isBroadcast then 1 else 0
  }

  /** The channels of those that are not, in order. */
  function DirectChannels(ms: seq<RoomMessage>): seq<nat> {
    if ms == [] then []
    else DirectChannels(ms[..|ms| - 1]) + if ms[|ms| - 1].isBroadcast then [] else [ms[|ms| - 1].tx]
  }

  /** The next k messages of the network taken in, with nothing taken off the channels
      to the agent and the gadget in between. */
  function Taken(f: Executions.State, k: nat): Option<Executions.State> {
    if k == 0 then Some(f)
    else match Taken(f, k - 1)
         case None => None
         case Some(f1) => Inward(f1)
  }

  /** Message j of those taken in sits on the echo channel, to be answered by the gadget. */
  ghost predicate Echoed(f: Executions.State, t: Executions.State, j: nat)
    requires j < |f.fromNetwork|
  {
    var (m, at) := (f.fromNetwork[j], |f.echo| + BroadcastsIn(f.fromNetwork[..j]));
    m.isBroadcast ==> at < |t.echo| && t.echo[at] == EchoMessage(m.index + 1, m.payload, Incoming(m.tx))
  }

  /** After k messages were taken in: the rest is queued, the agent was handed each of
      them in order, direct ones were acknowledged empty and on their own channels,
      and broadcasts are on the echo channel. Nothing was sent. */
  ghost predicate TakenSoFar(f: Executions.State, t: Executions.State, d: nat, k: nat)
    requires k <= |f.fromNetwork|
  {
    && t.parties == f.parties && t.i == f.i && t.n == f.n
    && t.fromNetwork == f.fromNetwork[k..] && t.fromProtocol == f.fromProtocol
    && t.sends == f.sends && t.signalled == f.signalled && t.nextChan == f.nextChan
    && |t.toProtocol| == |f.toProtocol| + k && f.toProtocol <= t.toProtocol
    && (forall j :: 0 <= j < k ==> HandedAs(t.toProtocol[|f.toProtocol| + j], f.fromNetwork[j], d))
    && Acknowledges(f, t, DirectChannels(f.fromNetwork[..k]))
    && |t.echo| == |f.echo| + BroadcastsIn(f.fromNetwork[..k]) && f.echo <= t.echo
    && forall j :: 0 <= j < k ==> Echoed(f, t, j)
  }

  /** One more empty answer on each of these channels. */
  ghost predicate Acknowledges(f: Executions.State, t: Executions.State, channels: seq<nat>) {
    && |t.acks| == |f.acks| + |channels| && f.acks <= t.acks
    && forall j :: 0 <= j < |channels| ==> t.acks[|f.acks| + j] == (channels[j], [])
  }

  /** The agent keeps up, and the broadcasts fit the echo channel. */
  ghost predicate Takeable(f: Executions.State, n: nat, k: nat)
    requires k <= |f.fromNetwork|
  {
    && (k > 0 ==> |f.toProtocol| + k <= n - 1)
    && (BroadcastsIn(f.fromNetwork[..k]) > 0 ==> |f.echo| + BroadcastsIn(f.fromNetwork[..k]) <= n)
  }

  lemma TakeableNext(f: Executions.State, n: nat, k: nat)
    requires 0 < k <= |f.fromNetwork|
    ensures var (m, used) := (f.fromNetwork[k - 1], |f.echo| + BroadcastsIn(f.fromNetwork[..k - 1]));
      Takeable(f, n, k) <==> Takeable(f, n, k - 1) && |f.toProtocol| + k <= n - 1 && (m.isBroadcast ==> used < n)
  {
    assert f.fromNetwork[..k][..k - 1] == f.fromNetwork[..k - 1];
  }

  /** One message taken in. */
  lemma TakeNext(t: Executions.State)
    requires t.fromNetwork != [] && Inward(t).Some?
    ensures var (m, u) := (t.fromNetwork[0], Inward(t).value);
      && u.(fromNetwork := [], toProtocol := [], acks := [], echo := [])
         == t.(fromNetwork := [], toProtocol := [], acks := [], echo := [])
      && u.fromNetwork == t.fromNetwork[1..]
      && |u.toProtocol| == |t.toProtocol| + 1 && t.toProtocol <= u.toProtocol
      && HandedAs(u.toProtocol[|t.toProtocol|], m, t.i)
      && u.acks == t.acks + (if m.isBroadcast then [] else [(m.tx, [])])
      && u.echo == t.echo + if m.isBroadcast then [EchoMessage(m.index + 1, m.payload, Incoming(m.tx))] else []
  {
  }

  lemma AcknowledgesNext(f: Executions.State, t: Executions.State, u: Executions.State, channels: seq<nat>,
                         more: seq<nat>)
    requires Acknowledges(f, t, channels) && |more| <= 1
    requires u.acks == t.acks + if more == [] then [] else [(more[0], [])]
    ensures Acknowledges(f, u, channels + more)
  {
  }

  lemma EchoedStill(f: Executions.State, t: Executions.State, u: Executions.State, j: nat)
    requires j < |f.fromNetwork| && Echoed(f, t, j) && t.echo <= u.echo
    ensures Echoed(f, u, j)
  {
  }

  lemma TakenOneMore(f: Executions.State, t: Executions.State, d: nat, k: nat)
    requires f.i == d && k < |f.fromNetwork| && TakenSoFar(f, t, d, k) && Inward(t).Some?
    ensures TakenSoFar(f, Inward(t).value, d, k + 1)
  {
    var (ms, u, m) := (f.fromNetwork, Inward(t).value, f.fromNetwork[k]);
    assert ms[..k + 1][..k] == ms[..k] && ms[k..][1..] == ms[k + 1..] && ms[k..][0] == m;
    TakeNext(t);
    AcknowledgesNext(f, t, u, DirectChannels(ms[..k]), if m.isBroadcast then [] else [m.tx]);
    forall j | 0 <= j < k + 1 ensures Echoed(f, u, j) {
      if j < k {
        EchoedStill(f, t, u, j);
      }
    }
    forall j | 0 <= j < k + 1 ensures HandedAs(u.toProtocol[|f.toProtocol| + j], ms[j], d) {
      if j < k {
        assert u.toProtocol[|f.toProtocol| + j] == t.toProtocol[|f.toProtocol| + j];
      }
    }
  }

  /** The network's queue comes in without a panic exactly when the agent's channel has
      a place for each message and the echo channel one for each broadcast; then the
      agent is handed each of them, in order, from its sender's number and to its own
      or to all. */
  lemma {:induction false} QueueComesIn(f: Executions.State, peers: seq<PeerId>, d: nat, k: nat)
    requires Member(f, peers, d) && k <= |f.fromNetwork|
    ensures Taken(f, k).Some? <==> Takeable(f, |peers|, k)
    ensures Taken(f, k).Some? ==> TakenSoFar(f, Taken(f, k).value, d, k)
  {
    if k == 0 {
      assert f.fromNetwork[0..] == f.fromNetwork;
    } else {
      QueueComesIn(f, peers, d, k - 1);
      OneMoreIn(f, Taken(f, k - 1), peers, d, k - 1);
    }
  }

  ghost predicate TakenWell(f: Executions.State, t: Option<Executions.State>, n: nat, d: nat, k: nat)
    requires k <= |f.fromNetwork|
  {
    (t.Some? <==> Takeable(f, n, k)) && (t.Some? ==> TakenSoFar(f, t.value, d, k))
  }

  lemma OneMoreIn(f: Executions.State, t: Option<Executions.State>, peers: seq<PeerId>, d: nat, k: nat)
    requires Member(f, peers, d) && k < |f.fromNetwork| && TakenWell(f, t, |peers|, d, k)
    ensures TakenWell(f, match t case None => None case Some(t1) => Inward(t1), |peers|, d, k + 1)
  {
    TakeableNext(f, |peers|, k + 1);
    if t.Some? {
      TakenNext(f, t.value, peers, d, k);
    }
  }

  lemma TakenNext(f: Executions.State, t: Executions.State, peers: seq<PeerId>, d: nat, k: nat)
    requires Member(f, peers, d) && k < |f.fromNetwork| && TakenSoFar(f, t, d, k)
    ensures Inward(t).Some? <==>
      && |f.toProtocol| + k + 1 <= |peers| - 1
      && (f.fromNetwork[k].isBroadcast ==> |f.echo| + BroadcastsIn(f.fromNetwork[..k]) < |peers|)
    ensures Inward(t).Some? ==> TakenSoFar(f, Inward(t).value, d, k + 1)
  {
    assert t.fromNetwork[0] == f.fromNetwork[k];
    InwardExactly(t);
    if Inward(t).Some? {
      TakenOneMore(f, t, d, k);
    }
  }

  lemma InwardExactly(t: Executions.State)
    requires t.fromNetwork != []
    ensures Inward(t).Some? <==> |t.toProtocol| + 1 <= t.n - 1 && (t.fromNetwork[0].isBroadcast ==> |t.echo| < t.n)
  {
  }

  // ---------- end to end ----------

  /** The agent's next message, whatever is queued behind it. Only a broadcast needs
      room on the echo channel. */
  ghost predicate Next<M>(e: Executions.State, m: Msg<M>, ser: M -> Bytes, sent: nat) {
    && e.fromProtocol != [] && e.fromProtocol[0] == ToRuntime(m, ser, sent)
    && (m.receiver.None? ==> |e.echo| < EchoCapacity(e))
  }

  /** The send that comes out of the sender's poll. */
  function LastSend(e: Executions.State): NetworkSend {
    match Outward(e)
    case Some(out) => if out.sends == [] then Direct([], Computation, []) else out.sends[|out.sends| - 1]
    case None => Direct([], Computation, [])
  }

  lemma DirectSend<M>(e: Executions.State, peers: seq<PeerId>, i: nat, m: Msg<M>, ser: M -> Bytes, sent: nat)
    requires Member(e, peers, i) && Next(e, m, ser, sent) && m.receiver.Some? && 1 <= m.receiver.value <= |peers|
    ensures Outward(e).Some? && LastSend(e) == Direct(peers[m.receiver.value - 1], Computation, ser(m.body))
  {
    assert Outward(e).value.sends == e.sends + [Direct(peers[m.receiver.value - 1], Computation, ser(m.body))];
  }

  lemma MulticastSend<M>(e: Executions.State, peers: seq<PeerId>, i: nat, m: Msg<M>, ser: M -> Bytes, sent: nat)
    requires Member(e, peers, i) && Next(e, m, ser, sent) && m.receiver.None?
    ensures Outward(e).Some?
    ensures LastSend(e) == Multicast(Remotes(peers, peers[i]), MessageType.Coordination, ser(m.body), e.nextChan)
  {
    assert Outward(e).value.sends
        == e.sends + [Multicast(Remotes(peers, peers[i]), MessageType.Coordination, ser(m.body), e.nextChan)];
  }

  /** The copies all carry the body, and the flag and target the receiver asks for. */
  lemma SentCopies<M>(e: Executions.State, peers: seq<PeerId>, i: nat, m: Msg<M>, ser: M -> Bytes, sent: nat)
    requires Member(e, peers, i) && Next(e, m, ser, sent)
    requires m.receiver.Some? ==> 1 <= m.receiver.value <= |peers|
    ensures m.receiver.Some? ==>
      Wires(LastSend(e))
      == [(peers[m.receiver.value - 1], WireMessage(MessageContext(Computation, 0, 0), ser(m.body), false))]
    ensures m.receiver.None? ==>
      var (wires, remotes) := (Wires(LastSend(e)), Remotes(peers, peers[i]));
      |wires| == |remotes| && forall k :: 0 <= k < |wires| ==>
        wires[k] == (remotes[k], WireMessage(MessageContext(MessageType.Coordination, 0, 0), ser(m.body), true))
  {
    if m.receiver.Some? {
      DirectSend(e, peers, i, m, ser, sent);
    } else {
      MulticastSend(e, peers, i, m, ser, sent);
    }
  }

  /** What one copy carries, and whom it may reach. */
  lemma CopyCarries<M>(e: Executions.State, peers: seq<PeerId>, i: nat, d: nat, m: Msg<M>, ser: M -> Bytes, sent: nat,
                       k: nat)
    requires Member(e, peers, i) && d < |peers|
    requires Next(e, m, ser, sent)
    requires m.receiver.Some? ==> 1 <= m.receiver.value <= |peers|
    requires k < |Wires(LastSend(e))| && Wires(LastSend(e))[k].0 == peers[d]
    ensures var w := Wires(LastSend(e))[k].1;
      && w.payload == ser(m.body)
      && w.isBroadcast == m.receiver.None?
      && (m.receiver.Some? ==> m.receiver.value == d + 1)
  {
    SentCopies(e, peers, i, m, ser, sent);
  }

  lemma Translated<M>(i: nat, d: nat, m: Msg<M>, w: WireMessage, x: IncomingMessage, r: RoomMessage, ser: M -> Bytes,
                      de: Bytes -> M)
    requires de(ser(m.body)) == m.body
    requires w.payload == ser(m.body) && w.isBroadcast == m.receiver.None?
      && (m.receiver.Some? ==> m.receiver.value == d + 1)
    requires HandedAs(x, r, d) && r.index == i && r.payload == w.payload && r.isBroadcast == w.isBroadcast
    ensures FromRuntime(x, de) == Msg(i + 1, m.receiver, m.body)
  {
  }

  /** Routing identity for one sender and one receiving node. The sender at place i
      gives its agent's message to the network. Every copy that reaches the node at
      place d is forwarded to d's computation, and the poll that takes it in, if the
      channels have room, hands it to d's agent from party i + 1, to d's own number or
      to all as it was sent, with the body that was sent. The copy leaves the queue,
      and a direct one, and no other, is acknowledged on its channel. */
  lemma RoutedAsSent<M>(e: Executions.State, f: Executions.State, peers: seq<PeerId>, i: nat, d: nat, m: Msg<M>,
                    ser: M -> Bytes, de: Bytes -> M, sent: nat, tx: nat, k: nat)
    requires Member(e, peers, i) && Member(f, peers, d)
    requires Next(e, m, ser, sent)
    requires m.receiver.Some? ==> 1 <= m.receiver.value <= |peers|
    requires de(ser(m.body)) == m.body && |ser(m.body)| <= MAX_REQUEST
    requires k < |Wires(LastSend(e))| && Wires(LastSend(e))[k].0 == peers[d]
    ensures var r := Forwarding(f.parties, peers[i], EncodeRequest(Wires(LastSend(e))[k].1), tx);
      && r.Some?
      && (f.fromNetwork != [] && f.fromNetwork[0] == r.value ==>
            && (Inward(f).Some? <==> |f.toProtocol| + 1 <= |peers| - 1 && (m.receiver.None? ==> |f.echo| < |peers|))
            && (Inward(f).Some? ==> TakesIn(f, Inward(f).value, Msg(i + 1, m.receiver, m.body), de, tx)))
  {
    var w := Wires(LastSend(e))[k].1;
    CopyCarries(e, peers, i, d, m, ser, sent, k);
    OneHop(f, peers, i, d, w, tx);
    var r := RoomMessage(peers[i], i, w.payload, w.isBroadcast, w.context, tx);
    if f.fromNetwork != [] && f.fromNetwork[0] == r {
      InwardExactly(f);
      if Inward(f).Some? {
        TakeNext(f);
        Translated(i, d, m, w, Inward(f).value.toProtocol[|f.toProtocol|], r, ser, de);
      }
    }
  }

  /** From f to g one message is taken in: the agent is handed it as m. */
  ghost predicate TakesIn<M>(f: Executions.State, g: Executions.State, m: Msg<M>, de: Bytes -> M, tx: nat) {
    && f.fromNetwork != [] && g.fromNetwork == f.fromNetwork[1..]
    && |g.toProtocol| == |f.toProtocol| + 1 && f.toProtocol <= g.toProtocol
    && FromRuntime(g.toProtocol[|f.toProtocol|], de) == m
    && g.acks == f.acks + if m.receiver.Some? then [(tx, [])] else []
  }

  lemma RemotesReached(peers: seq<PeerId>, i: nat, d: nat)
    requires Distinct(peers) && i < |peers| && d < |peers|
    ensures d != i <==> exists k :: 0 <= k < |Remotes(peers, peers[i])| && Remotes(peers, peers[i])[k] == peers[d]
  {
    RemotesAreTheOthers(peers, peers[i]);
    assert peers[d] in Remotes(peers, peers[i]) <==> d != i;
  }

  /** Who is addressed: party j alone, or every party but the sender, each once. */
  lemma Addressees<M>(e: Executions.State, peers: seq<PeerId>, i: nat, m: Msg<M>, ser: M -> Bytes, sent: nat)
    requires Member(e, peers, i) && Next(e, m, ser, sent)
    requires m.receiver.Some? ==> 1 <= m.receiver.value <= |peers|
    ensures var wires := Wires(LastSend(e));
      && (m.receiver.Some? ==> |wires| == 1 && wires[0].0 == peers[m.receiver.value - 1])
      && (m.receiver.None? ==>
            && |wires| == |peers| - 1
            && (forall d :: 0 <= d < |peers| ==> (d != i <==> exists k :: 0 <= k < |wires| && wires[k].0 == peers[d]))
            && (forall k, l :: 0 <= k < l < |wires| ==> wires[k].0 != wires[l].0))
  {
    SentCopies(e, peers, i, m, ser, sent);
    var wires := Wires(LastSend(e));
    if m.receiver.None? {
      var remotes := Remotes(peers, peers[i]);
      RemotesAreTheOthers(peers, peers[i]);
      forall d | 0 <= d < |peers| ensures d != i <==> exists k :: 0 <= k < |wires| && wires[k].0 == peers[d] {
        RemotesReached(peers, i, d);
        if d != i {
          var k :| 0 <= k < |remotes| && remotes[k] == peers[d];
          assert wires[k].0 == peers[d];
        }
      }
    }
  }

  /** A party number outside the list, or 0, is a panic, and nothing else is as
      long as the echo channel has room. */
  lemma PanicExactlyOutOfRange(e: Executions.State, peers: seq<PeerId>, i: nat)
    requires Member(e, peers, i) && e.fromProtocol != []
    ensures Outward(e).None? <==>
      match e.fromProtocol[0].to
      case ToParty(j) => !(1 <= j <= |peers|)
      case ToAll => |e.echo| >= |peers|
  {
  }

  // ---------- a whole queue of the agent ----------

  predicate InRange(m: OutgoingMessage, n: nat) {
    match m.to case ToParty(j) => 1 <= j <= n case ToAll => true
  }

  /** How many of the messages are broadcasts. */
  function Broadcasts(ms: seq<OutgoingMessage>): nat {
    if ms == [] then 0
    else Broadcasts(ms[..|ms| - 1]) + if ms[|ms| - 1].to == ToAll then 1 else 0
  }

  /** The agent's next k messages sent, with nothing taken off the echo channel in between. */
  function Sent(e: Executions.State, k: nat): Option<Executions.State> {
    if k == 0 then Some(e)
    else match Sent(e, k - 1)
         case None => None
         case Some(e1) => Outward(e1)
  }

  /** What the network is asked to do for a message. */
  ghost predicate Carries(s: NetworkSend, m: OutgoingMessage, peers: seq<PeerId>, i: nat)
    requires i < |peers|
  {
    match m.to
    case ToParty(j) => 1 <= j <= |peers| && s == Direct(peers[j - 1], Computation, m.body)
    case ToAll =>
      && s.Multicast? && s.targets == Remotes(peers, peers[i])
      && s.messageType.Coordination? && s.payload == m.body
  }

  /** The handles to signal: those of messages to one party. */
  function Signals(ms: seq<OutgoingMessage>): seq<nat> {
    if ms == [] then []
    else
      var m := ms[|ms| - 1];
      Signals(ms[..|ms| - 1]) + if m.to.ToParty? && m.sent.Some? then [m.sent.value] else []
  }

  /** Of a broadcast the own gadget holds a copy, from the own number, which waits on
      the very channel its answers are sent to; each broadcast has a channel of its own. */
  ghost predicate OwnCopy(e: Executions.State, t: Executions.State, i: nat, j: nat)
    requires j < |e.fromProtocol| && |e.sends| + j < |t.sends|
  {
    var (m, s, b) := (e.fromProtocol[j], t.sends[|e.sends| + j], Broadcasts(e.fromProtocol[..j]));
    m.to == ToAll ==>
      && s.Multicast? && s.chan == e.nextChan + b
      && |e.echo| + b < |t.echo| && t.echo[|e.echo| + b] == EchoMessage(i + 1, m.body, Outgoing(s.chan))
  }

  /** After k of the messages `ms` were sent: the rest is queued, one send was made
      for each, in order, each broadcast took one place of the echo channel, and the
      handles of messages to one party were signalled. Nothing was taken in. */
  ghost predicate SentSoFar(e: Executions.State, t: Executions.State, peers: seq<PeerId>, i: nat, k: nat)
    requires i < |peers| && k <= |e.fromProtocol|
  {
    && t.parties == e.parties && t.i == e.i && t.n == e.n
    && t.fromProtocol == e.fromProtocol[k..]
    && t.fromNetwork == e.fromNetwork && t.toProtocol == e.toProtocol && t.acks == e.acks
    && |t.echo| == |e.echo| + Broadcasts(e.fromProtocol[..k]) && e.echo <= t.echo
    && t.nextChan == e.nextChan + Broadcasts(e.fromProtocol[..k])
    && t.signalled == e.signalled + Signals(e.fromProtocol[..k])
    && |t.sends| == |e.sends| + k && e.sends <= t.sends
    && (forall j :: 0 <= j < k ==> Carries(t.sends[|e.sends| + j], e.fromProtocol[j], peers, i))
    && forall j :: 0 <= j < k ==> OwnCopy(e, t, i, j)
  }

  /** Every one of the first k messages can be routed, and the broadcasts fit the echo channel. */
  ghost predicate Routable(e: Executions.State, n: nat, k: nat)
    requires k <= |e.fromProtocol|
  {
    && (forall j :: 0 <= j < k ==> InRange(e.fromProtocol[j], n))
    && (Broadcasts(e.fromProtocol[..k]) > 0 ==> |e.echo| + Broadcasts(e.fromProtocol[..k]) <= n)
  }

  /** One message sent. */
  lemma SentOne(t: Executions.State)
    requires t.fromProtocol != [] && Outward(t).Some?
    ensures var (m, u) := (t.fromProtocol[0], Outward(t).value);
      && u.(fromProtocol := [], sends := [], signalled := [], echo := [], nextChan := 0)
         == t.(fromProtocol := [], sends := [], signalled := [], echo := [], nextChan := 0)
      && u.fromProtocol == t.fromProtocol[1..]
      && |u.sends| == |t.sends| + 1 && t.sends <= u.sends
      && u.signalled == t.signalled + Signals([m])
      && (m.to.ToParty? ==> u.echo == t.echo && u.nextChan == t.nextChan)
      && (m.to == ToAll ==>
            && u.nextChan == t.nextChan + 1 && u.sends[|t.sends|].Multicast? && u.sends[|t.sends|].chan == t.nextChan
            && u.echo == t.echo + [EchoMessage(t.i + 1, m.body, Outgoing(t.nextChan))])
  {
    assert [t.fromProtocol[0]][..0] == [];
  }

  lemma SentCarries(t: Executions.State, peers: seq<PeerId>, i: nat)
    requires Member(t, peers, i) && t.fromProtocol != [] && Outward(t).Some?
    ensures var u := Outward(t).value; u.sends != [] && Carries(u.sends[|t.sends|], t.fromProtocol[0], peers, i)
  {
  }

  lemma OwnCopyStill(e: Executions.State, t: Executions.State, u: Executions.State, i: nat, j: nat)
    requires j < |e.fromProtocol| && |e.sends| + j < |t.sends| && OwnCopy(e, t, i, j)
    requires t.sends <= u.sends && t.echo <= u.echo
    ensures OwnCopy(e, u, i, j)
  {
  }

  lemma SignalsNext(ms: seq<OutgoingMessage>, k: nat)
    requires k < |ms|
    ensures Signals(ms[..k + 1]) == Signals(ms[..k]) + Signals([ms[k]])
    ensures Broadcasts(ms[..k + 1]) == Broadcasts(ms[..k]) + if ms[k].to == ToAll then 1 else 0
  {
    assert ms[..k + 1][..k] == ms[..k] && [ms[k]][..0] == [];
    assert Signals([]) == [];
  }

  lemma SendNext(e: Executions.State, t: Executions.State, peers: seq<PeerId>, i: nat, k: nat)
    requires Member(e, peers, i) && k < |e.fromProtocol| && SentSoFar(e, t, peers, i, k)
    ensures Outward(t).Some? ==> SentSoFar(e, Outward(t).value, peers, i, k + 1)
  {
    var ms := e.fromProtocol;
    assert ms[k..][1..] == ms[k + 1..] && ms[k..][0] == ms[k];
    if Outward(t).Some? {
      var u := Outward(t).value;
      SentOne(t);
      SentCarries(t, peers, i);
      SignalsNext(ms, k);
      SumAssociates(e.signalled, Signals(ms[..k]), Signals([ms[k]]));
      forall j | 0 <= j < k + 1
        ensures Carries(u.sends[|e.sends| + j], ms[j], peers, i) && OwnCopy(e, u, i, j)
      {
        if j < k {
          OwnCopyStill(e, t, u, i, j);
        }
      }
    }
  }

  /** The agent's queue goes out without a panic exactly when every party number in
      it is one of the session's and its broadcasts fit the echo channel; then the
      network gets one send for each message, in the agent's order, and the gadget
      the own copy of each broadcast, waiting for its answers. */
  lemma {:induction false} QueueGoesOut(e: Executions.State, peers: seq<PeerId>, i: nat, k: nat)
    requires Member(e, peers, i) && k <= |e.fromProtocol|
    ensures Sent(e, k).Some? <==> Routable(e, |peers|, k)
    ensures Sent(e, k).Some? ==> SentSoFar(e, Sent(e, k).value, peers, i, k)
  {
    if k == 0 {
      assert e.fromProtocol[0..] == e.fromProtocol;
    } else {
      QueueGoesOut(e, peers, i, k - 1);
      OneMoreOut(e, Sent(e, k - 1), peers, i, k - 1);
    }
  }

  ghost predicate SentWell(e: Executions.State, t: Option<Executions.State>, peers: seq<PeerId>, i: nat, k: nat)
    requires i < |peers| && k <= |e.fromProtocol|
  {
    (t.Some? <==> Routable(e, |peers|, k)) && (t.Some? ==> SentSoFar(e, t.value, peers, i, k))
  }

  lemma OneMoreOut(e: Executions.State, t: Option<Executions.State>, peers: seq<PeerId>, i: nat, k: nat)
    requires Member(e, peers, i) && k < |e.fromProtocol| && SentWell(e, t, peers, i, k)
    ensures SentWell(e, match t case None => None case Some(t1) => Outward(t1), peers, i, k + 1)
  {
    RoutableNext(e, |peers|, k + 1);
    if t.Some? {
      PanicExactlyOutOfRange(t.value, peers, i);
      SendNext(e, t.value, peers, i, k);
    }
  }

  /** A poll sends one message, if there is one, and then takes one in: what it takes
      in finds the echo channel with the own broadcast already on it. */
  lemma OnePoll(e: Executions.State, peers: seq<PeerId>, i: nat)
    requires Member(e, peers, i)
    ensures var (k, l) := (if e.fromProtocol == [] then 0 else 1, if e.fromNetwork == [] then 0 else 1);
      && (Polled(e).Some? <==>
            Routable(e, |peers|, k) && Sent(e, k).Some? && Taken(Sent(e, k).value, l).Some?)
      && (Polled(e).Some? ==>
            && SentSoFar(e, Sent(e, k).value, peers, i, k)
            && Takeable(Sent(e, k).value, |peers|, l) && TakenSoFar(Sent(e, k).value, Polled(e).value, i, l))
  {
    var (k, l) := (if e.fromProtocol == [] then 0 else 1, if e.fromNetwork == [] then 0 else 1);
    QueueGoesOut(e, peers, i, k);
    assert Sent(e, 0) == Some(e);
    if Sent(e, k).Some? {
      var mid := Sent(e, k).value;
      QueueComesIn(mid, peers, i, l);
      assert Taken(mid, 0) == Some(mid);
    }
  }

  lemma RoutableNext(e: Executions.State, n: nat, k: nat)
    requires 0 < k <= |e.fromProtocol|
    ensures var (m, used) := (e.fromProtocol[k - 1], |e.echo| + Broadcasts(e.fromProtocol[..k - 1]));
      Routable(e, n, k) <==> Routable(e, n, k - 1) && InRange(m, n) && (m.to == ToAll ==> used < n)
  {
    assert e.fromProtocol[..k][..k - 1] == e.fromProtocol[..k - 1];
  }

  /** The own broadcast carries the own number. */
  lemma OwnEchoLabel(e: Executions.State, peers: seq<PeerId>, i: nat, body: Bytes)
    requires Member(e, peers, i) && e.fromProtocol != []
    requires e.fromProtocol[0].to == ToAll && e.fromProtocol[0].body == body && |e.echo| < EchoCapacity(e)
    ensures Outward(e).Some?
    ensures var own := Outward(e).value.echo;
      |own| == |e.echo| + 1 && own[|e.echo|].sender == i + 1 && own[|e.echo|].payload == body
  {
  }

  /** A tagged broadcast that comes in carries its sender's number. */
  lemma ForeignEchoLabel(f: Executions.State, msg: RoomMessage, i: nat)
    requires msg.index == i && msg.isBroadcast && |f.echo| < EchoCapacity(f) && |f.toProtocol| < AgentCapacity(f)
    ensures var g := f.(fromNetwork := [msg]);
      Inward(g).Some? && Inward(g).value.echo == f.echo + [EchoMessage(i + 1, msg.payload, Incoming(msg.tx))]
  {
  }

  /** The echo gadgets of all nodes know a sender by the same number: the own
      broadcast at place i and its copies everywhere else carry i + 1. */
  lemma EchoLabelsAgree(e: Executions.State, f: Executions.State, peers: seq<PeerId>, i: nat, d: nat, body: Bytes,
                        tx: nat)
    requires Member(e, peers, i) && Member(f, peers, d) && i != d
    requires e.fromProtocol != [] && e.fromProtocol[0].to == ToAll && e.fromProtocol[0].body == body
      && |e.echo| < EchoCapacity(e)
    requires |body| <= MAX_REQUEST && |f.echo| < EchoCapacity(f) && |f.toProtocol| < AgentCapacity(f)
    ensures var own := Outward(e).value.echo;
      |own| == |e.echo| + 1 && own[|e.echo|].sender == i + 1 && own[|e.echo|].payload == body
    ensures var msg := RoomMessage(peers[i], 0, body, true, MessageContext(MessageType.Coordination, 0, 0), tx);
      && Arrived(peers[i], EncodeRequest(WireMessage(msg.context, body, true)), tx) == Some(msg)
      && ProxyPoll(false, Some(msg), f.parties) == Forwarded(msg.(index := i))
      && Inward(f.(fromNetwork := [msg.(index := i)])).Some?
      && Inward(f.(fromNetwork := [msg.(index := i)])).value.echo == f.echo + [EchoMessage(i + 1, body, Incoming(tx))]
  {
    var msg := RoomMessage(peers[i], 0, body, true, MessageContext(MessageType.Coordination, 0, 0), tx);
    OwnEchoLabel(e, peers, i, body);
    Arrival(peers[i], WireMessage(msg.context, body, true), tx);
    Tagged(f, peers, i, d, msg);
    ForeignEchoLabel(f, msg.(index := i), i);
  }

  /** The execution a node sets up for the session it has begun. */
  function Fresh(p: Peerset): Executions.State
    requires IndexOf(p, p.local).Some?
  {
    Executions.State(p, IndexOf(p, p.local).value, |p.peers| % U16, [], [], [], [], [], [], [], 0)
  }

  /** All nodes running one attempt that fits are members of one list, each at its
      own place, so routing identity holds between any two of them. */
  lemma SessionMembers(c: Sessions.Config, states: seq<Sessions.State>, steps: seq<Sessions.Step>, t: nat, p: PeerId,
                       q: PeerId, a: nat)
    requires Sessions.Run(c, states, steps) && t < |states|
    requires Sessions.RunsAttempt(states[t], p, a) && Sessions.RunsAttempt(states[t], q, a)
    requires a < |states[t].attempts| && Sessions.Fits(c, states[t].attempts[a])
    ensures var (x, y) := (states[t].nodes[p].session.parties, states[t].nodes[q].session.parties);
      && x.local == p && y.local == q
      && IndexOf(x, p).Some? && IndexOf(y, q).Some?
      && Member(Fresh(x), x.peers, IndexOf(x, p).value)
      && Member(Fresh(y), x.peers, IndexOf(y, q).value)
      && (p != q ==> IndexOf(x, p).value != IndexOf(y, q).value)
  {
    Sessions.SessionAgreement(c, states, steps, t, p, q, a);
    Sessions.RunSound(c, states, steps, t);
    FittingPartyIsSmall(c, states[t].attempts[a]);
    OwnPlaces(states[t].nodes[p].session.parties, states[t].nodes[q].session.parties);
  }

  lemma OwnPlaces(x: Peerset, y: Peerset)
    requires x.peers == y.peers && Distinct(x.peers) && |x.peers| < U16
    requires x.local in x.peers && y.local in y.peers
    ensures IndexOf(x, x.local).Some? && IndexOf(y, y.local).Some?
    ensures Member(Fresh(x), x.peers, IndexOf(x, x.local).value)
    ensures Member(Fresh(y), x.peers, IndexOf(y, y.local).value)
    ensures x.local != y.local ==> IndexOf(x, x.local).value != IndexOf(y, y.local).value
  {
    OwnPlace(x);
    OwnPlace(y);
  }

  lemma OwnPlace(x: Peerset)
    requires Distinct(x.peers) && |x.peers| < U16 && x.local in x.peers
    ensures IndexOf(x, x.local).Some? && Member(Fresh(x), x.peers, IndexOf(x, x.local).value)
  {
    IndexInverse(x);
    assert |x.peers| % U16 == |x.peers|;
  }

  lemma FittingPartyIsSmall(c: Sessions.Config, at: Sessions.Attempt)
    requires Sessions.GoodConfig(c) && Sessions.AttemptSound(c, at) && at.started && Sessions.Fits(c, at)
    ensures |at.order| < U16
  {
    Sessions.SortedIds(c, at);
    FlatAt(Sort(at.order), Peersets.Identity(|at.order|), 0);
    assert StartMessages.PeersetBytes(Sessions.StartOf(c, at)) == Flat(Sort(at.order), Peersets.Identity(|at.order|));
  }
}
