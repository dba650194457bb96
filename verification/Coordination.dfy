/** The stations a room's receiver passes through before a computation: waiting
    (phase 1), joining (phase 2), proposing (negotiation), and forwarding (proxy). */
module Coordination {
  import opened Basics
  import opened PeerOrder
  import opened Peersets
  import opened Messages
  import opened StartMessages
  import Broadcasts

  type RoomId = string

  /** A message that reached a room; `tx` is the channel its answer goes to. */
  datatype RoomMessage = RoomMessage(peer: PeerId, index: nat, payload: Bytes, isBroadcast: bool,
                                     context: MessageContext, tx: nat)

  /** A computation requested by the local user; `done` is its completion handle. */
  datatype LocalRpc = LocalRpc(n: nat, args: Bytes, protocol: u64, done: nat)

  // ---------- phase 1 ----------

  datatype Phase1Msg =
    | FromRemote(msg: RoomMessage)
    | FromLocal(rpc: LocalRpc)
    | StillWaiting
    | Phase1Panic

  /** A remote proposal wins over a local request. An empty mailbox whose sender is
      gone is a panic, and so is a computation message. */
  function Phase1Poll(msg: Option<RoomMessage>, letter: Option<LocalRpc>, senderAlive: bool): Phase1Msg {
    match msg
    case Some(m) => if m.context.messageType.Coordination? then FromRemote(m) else Phase1Panic
    case None =>
      match letter
      case Some(rpc) => FromLocal(rpc)
      case None => if senderAlive then StillWaiting else Phase1Panic
  }

  /** The receiver of a room's messages, known by the room it belongs to. */
  datatype Receiver = Receiver(room: RoomId)

  /** A waiting room. `mailbox` names the request channel whose other end may sit in
      the daemon's table; `letter` is a request already put in. */
  datatype Phase1 = Phase1(id: RoomId, rx: Receiver, mailbox: nat, letter: Option<LocalRpc>)

  class Phase1Channel {
    const id: RoomId
    const mailbox: nat
    var rx: Option<Receiver>
    var letter: Option<LocalRpc>

    constructor (id: RoomId, rx: Receiver, mailbox: nat)
      ensures this.rx == Some(rx) && Value() == Phase1(id, rx, mailbox, None)
    {
      this.id := id;
      this.mailbox := mailbox;
      this.rx := Some(rx);
      letter := None;
    }

    ghost function Value(): Phase1
      requires rx.Some?
      reads this
    {
      Phase1(id, rx.value, mailbox, letter)
    }

    /** `next` is what the receiver has ready. Unless it keeps waiting, the channel
        gives its receiver away. */
    method Poll(next: Option<RoomMessage>, senderAlive: bool) returns (out: Phase1Msg, taken: Option<Receiver>)
      requires rx.Some?
      modifies this`rx
      ensures out == Phase1Poll(next, letter, senderAlive)
      ensures out.FromRemote? || out.FromLocal? ==> taken == old(rx) && rx == None
      ensures !(out.FromRemote? || out.FromLocal?) ==> taken == None && rx == old(rx)
    {
      taken := None;
      if next.Some? {
        if next.value.context.messageType.Computation? {
          return Phase1Panic, None;
        }
        taken := rx;
        rx := None;
        return FromRemote(next.value), taken;
      }
      if letter.Some? {
        taken := rx;
        rx := None;
        return FromLocal(letter.value), taken;
      }
      out := if senderAlive then StillWaiting else Phase1Panic;
    }
  }

  /** Setting up an execution panics unless there are two parties, this node one of them. */
  predicate CanStart(local: PeerId, parties: Peerset) {
    |parties.peers| >= 2 && local in parties.peers
  }

  // ---------- phase 2 ----------

  datatype Phase2Msg =
    | Started(parties: Peerset, body: Bytes)
    | Aborted
    | StillJoining
    | Phase2Panic

  function Phase2Poll(msg: Option<RoomMessage>, timeout: bool, local: PeerId, valid: PeerId -> bool): Phase2Msg {
    match msg
    case None => if timeout then Aborted else StillJoining
    case Some(m) =>
      if m.context.messageType.Computation? then Phase2Panic else
      match Parsed(m.payload, local, valid)
      case Panicked => Phase2Panic
      case Done(None) => Aborted
      case Done(Some(start)) => Started(start.parties, start.body)
  }

  class Phase2Chan {
    const id: RoomId
    var rx: Option<Receiver>

    constructor (id: RoomId, rx: Receiver)
      ensures this.id == id && this.rx == Some(rx)
    {
      this.id := id;
      this.rx := Some(rx);
    }

    /** Starting hands the receiver to a proxy, aborting hands it back to phase 1. */
    method Poll(next: Option<RoomMessage>, timeout: bool, local: PeerId, valid: PeerId -> bool)
      returns (out: Phase2Msg, taken: Option<Receiver>)
      requires rx.Some?
      modifies this`rx
      ensures out == Phase2Poll(next, timeout, local, valid)
      ensures out.Started? || out.Aborted? ==> taken == old(rx) && rx == None
      ensures !(out.Started? || out.Aborted?) ==> taken == None && rx == old(rx)
    {
      taken := None;
      if next.Some? {
        if next.value.context.messageType.Computation? {
          return Phase2Panic, None;
        }
        var start := StartMessages.FromBytes(next.value.payload, local, valid);
        if start.Panicked? {
          return Phase2Panic, None;
        }
        taken := rx;
        rx := None;
        out := match start.value case None => Aborted case Some(m) => Started(m.parties, m.body);
        return;
      }
      if timeout {
        taken := rx;
        rx := None;
        return Aborted, taken;
      }
      out := StillJoining;
    }

    /** Refusing an unknown protocol: back to phase 1 with the receiver. */
    method Abort() returns (taken: Receiver)
      requires rx.Some?
      modifies this`rx
      ensures Some(taken) == old(rx) && rx == None
    {
      taken := rx.value;
      rx := None;
    }
  }

  // ---------- negotiation ----------

  /** `asked`: the proposal has gone out. `peers`: the node itself and who agreed to join. */
  datatype Negotiation = Negotiation(rpc: LocalRpc, peers: set<PeerId>, asked: bool)

  datatype NegotiationMsg =
    | Assembled(parties: Peerset, start: Bytes, targets: set<PeerId>)
    | GaveUp
    | Pending(next: Negotiation, proposed: bool)

  function NewNegotiation(rpc: LocalRpc, local: PeerId): Negotiation {
    Negotiation(rpc, {local}, false)
  }

  /** The peers after one response. Failures and silence add nobody. */
  function Joined(g: Negotiation, response: Option<Broadcasts.Answer>): set<PeerId> {
    if g.asked && response.Some? && response.value.Ok? then g.peers + {response.value.value.0} else g.peers
  }

  /** A response completes the party when it leaves exactly n peers. */
  predicate Complete(g: Negotiation, response: Option<Broadcasts.Answer>) {
    g.asked && response.Some? && response.value.Ok? && |Joined(g, response)| == g.rpc.n
  }

  /** When the party is complete, `order` lists the hash set of the peers collected. */
  ghost predicate Lists(g: Negotiation, response: Option<Broadcasts.Answer>, order: seq<PeerId>) {
    Complete(g, response) ==> Distinct(order) && Elems(order) == Joined(g, response)
  }

  /** `order` is the order in which the hash set of peers happens to be listed. */
  function NegotiationPoll(g: Negotiation, response: Option<Broadcasts.Answer>, timeout: bool, order: seq<PeerId>,
                           local: PeerId): NegotiationMsg {
    if Complete(g, response) then
      var parties := New(order, local);
      Assembled(parties, Written(StartMsg(parties, g.rpc.args)), Joined(g, response))
    else if timeout then GaveUp
    else Pending(Negotiation(g.rpc, Joined(g, response), true), !g.asked)
  }

  /** The party is the peers collected, all of them, once each, in canonical order. */
  ghost predicate AssembledFrom(g: Negotiation, response: Option<Broadcasts.Answer>, parties: Peerset, local: PeerId) {
    && parties.local == local && parties.indexes == Identity(|parties.peers|)
    && Sorted(parties.peers) && Distinct(parties.peers)
    && Elems(parties.peers) == Joined(g, response) && |parties.peers| == g.rpc.n
  }

  lemma AssembledFromOrder(g: Negotiation, response: Option<Broadcasts.Answer>, order: seq<PeerId>, local: PeerId)
    requires Complete(g, response) && Lists(g, response, order)
    ensures AssembledFrom(g, response, New(order, local), local)
  {
    SortKeepsDistinct(order);
    DistinctCount(order);
  }

  /** What one poll of a negotiation finds. */
  datatype Finding = Finding(response: Option<Broadcasts.Answer>, timeout: bool, order: seq<PeerId>)

  function PollOn(g: Negotiation, f: Finding, local: PeerId): NegotiationMsg {
    NegotiationPoll(g, f.response, f.timeout, f.order, local)
  }

  predicate Agrees(f: Finding) {
    f.response.Some? && f.response.value.Ok?
  }

  /** The proposer and everybody whose consent was found before poll i, the first
      poll apart: nobody has been asked then. */
  ghost function Agreed(local: PeerId, fs: seq<Finding>, i: nat): set<PeerId>
    requires i <= |fs|
  {
    {local} + set j | 1 <= j < i && Agrees(fs[j]) :: fs[j].response.value.value.0
  }

  /** gs[i] is the negotiation before its poll i, all polls but the last having left it pending. */
  ghost predicate NegotiationRun(rpc: LocalRpc, local: PeerId, gs: seq<Negotiation>, fs: seq<Finding>) {
    && |gs| == |fs| > 0 && gs[0] == NewNegotiation(rpc, local)
    && (forall i :: 0 <= i < |fs| ==> Lists(gs[i], fs[i].response, fs[i].order))
    && forall i :: 0 <= i < |fs| - 1 ==>
      PollOn(gs[i], fs[i], local).Pending? && PollOn(gs[i], fs[i], local).next == gs[i + 1]
  }

  lemma {:induction false} PeersAreWhoAgreed(rpc: LocalRpc, local: PeerId, gs: seq<Negotiation>, fs: seq<Finding>,
                                             i: nat)
    requires NegotiationRun(rpc, local, gs, fs) && i < |gs|
    ensures gs[i] == Negotiation(rpc, Agreed(local, fs, i), i > 0)
  {
    if i == 0 {
    } else {
      PeersAreWhoAgreed(rpc, local, gs, fs, i - 1);
      assert PollOn(gs[i - 1], fs[i - 1], local).Pending?;
      AgreedNext(local, fs, i - 1);
    }
  }

  lemma AgreedNext(local: PeerId, fs: seq<Finding>, i: nat)
    requires i < |fs|
    ensures Agreed(local, fs, i + 1)
      == Agreed(local, fs, i) + if i > 0 && Agrees(fs[i]) then {fs[i].response.value.value.0} else {}
  {
  }

  /** A negotiation over all its polls. The proposal goes out on the first poll and on
      no other. The party is assembled by the first consent that makes the proposer
      and those who agreed exactly n; the start message then goes to each of them, and
      to nobody else, and names them all. Short of that, silence ends it. */
  lemma NegotiationOutcome(rpc: LocalRpc, local: PeerId, gs: seq<Negotiation>, fs: seq<Finding>, i: nat)
    requires NegotiationRun(rpc, local, gs, fs) && i < |fs|
    ensures var (out, all) := (PollOn(gs[i], fs[i], local), Agreed(local, fs, i + 1));
      && (out.Assembled? <==> i > 0 && Agrees(fs[i]) && |all| == rpc.n)
      && (out.Assembled? ==>
            && out.targets == Elems(out.parties.peers) == all && Distinct(out.parties.peers)
            && out.start == Written(StartMsg(out.parties, rpc.args)))
      && (out.GaveUp? <==> !out.Assembled? && fs[i].timeout)
      && (out.Pending? ==> (out.proposed <==> i == 0))
  {
    PeersAreWhoAgreed(rpc, local, gs, fs, i);
    AgreedNext(local, fs, i);
    if Complete(gs[i], fs[i].response) {
      AssembledFromOrder(gs[i], fs[i].response, fs[i].order, local);
    }
  }

  class NegotiationChan {
    const id: RoomId
    var rx: Option<Receiver>
    var state: Option<Negotiation>

    constructor (id: RoomId, rx: Receiver, rpc: LocalRpc, local: PeerId)
      ensures this.id == id && this.rx == Some(rx) && state == Some(NewNegotiation(rpc, local))
    {
      this.id := id;
      this.rx := Some(rx);
      state := Some(NewNegotiation(rpc, local));
    }

    method Poll(response: Option<Broadcasts.Answer>, timeout: bool, order: seq<PeerId>, local: PeerId)
      returns (out: NegotiationMsg, taken: Option<Receiver>)
      requires rx.Some? && state.Some?
      requires Lists(state.value, response, order)
      modifies this
      ensures out == NegotiationPoll(old(state.value), response, timeout, order, local)
      ensures out.Pending? ==> state == Some(out.next) && rx == old(rx) && taken == None
      ensures !out.Pending? ==> state == None && rx == None && taken == old(rx)
      ensures out.Assembled? ==> AssembledFrom(old(state.value), response, out.parties, local)
      ensures out.Assembled? ==> out.targets == Elems(out.parties.peers)
    {
      if Complete(state.value, response) {
        AssembledFromOrder(state.value, response, order, local);
      }
      var g := state.value;
      state := None;
      taken := None;
      var peers := g.peers;
      if g.asked {
        if response.Some? && response.value.Ok? {
          peers := peers + {response.value.value.0};
          if |peers| == g.rpc.n {
            var parties := New(order, local);
            var bytes := StartMessages.ToBytes(StartMsg(parties, g.rpc.args));
            taken := rx;
            rx := None;
            return Assembled(parties, bytes, peers), taken;
          }
        }
      }
      if timeout {
        taken := rx;
        rx := None;
        return GaveUp, taken;
      }
      state := Some(Negotiation(g.rpc, peers, true));
      out := Pending(state.value, !g.asked);
    }
  }

  // ---------- proxy ----------

  datatype ProxyMsg =
    | Returned
    | Forwarded(msg: RoomMessage)
    | Nothing
    | ProxyPanic

  /** The room goes back to phase 1 once nobody listens to the forwarded messages.
      Until then every message is tagged with its sender's number. */
  function ProxyPoll(closed: bool, msg: Option<RoomMessage>, parties: Peerset): ProxyMsg {
    if closed then Returned else
    match msg
    case None => Nothing
    case Some(m) =>
      match IndexOf(parties, m.peer)
      case Some(i) => Forwarded(m.(index := i))
      case None => ProxyPanic
  }

  /** Closed, a proxy only returns. Open, it passes every message of a party on whole,
      under the party's place in the list, and panics on a stranger. */
  lemma ForwardedByPlace(closed: bool, msg: Option<RoomMessage>, parties: Peerset)
    requires Distinct(parties.peers) && |parties.peers| <= U16
    ensures var out := ProxyPoll(closed, msg, parties);
      && (out.Returned? <==> closed)
      && (out.ProxyPanic? <==> !closed && msg.Some? && msg.value.peer !in parties.peers)
      && (out.Forwarded? <==> !closed && msg.Some? && msg.value.peer in parties.peers)
      && (out.Forwarded? ==>
            && out.msg.index < |parties.peers| && parties.peers[out.msg.index] == out.msg.peer
            && out.msg == msg.value.(index := out.msg.index))
  {
    IndexInverse(parties);
  }

  /** A forwarding room; `fwd` names the receiver it feeds. */
  datatype Proxy = Proxy(id: RoomId, rx: Receiver, fwd: nat, parties: Peerset)

  class ReceiverProxy {
    const id: RoomId
    const fwd: nat
    const parties: Peerset
    var rx: Option<Receiver>
    var forwarded: seq<RoomMessage>

    constructor (id: RoomId, rx: Receiver, fwd: nat, parties: Peerset)
      ensures this.rx == Some(rx) && Value() == Proxy(id, rx, fwd, parties) && forwarded == []
    {
      this.id := id;
      this.fwd := fwd;
      this.parties := parties;
      this.rx := Some(rx);
      forwarded := [];
    }

    ghost function Value(): Proxy
      requires rx.Some?
      reads this
    {
      Proxy(id, rx.value, fwd, parties)
    }

    /** `room`: the forwarding channel has room; a message that finds none is lost. */
    method Poll(closed: bool, next: Option<RoomMessage>, room: bool) returns (out: ProxyMsg, taken: Option<Receiver>)
      requires rx.Some?
      modifies this
      ensures out == ProxyPoll(closed, next, parties)
      ensures out.Returned? ==> taken == old(rx) && rx == None
      ensures !out.Returned? ==> taken == None && rx == old(rx)
      ensures forwarded == if out.Forwarded? && room then old(forwarded) + [out.msg] else old(forwarded)
    {
      taken := None;
      if closed {
        taken := rx;
        rx := None;
        return Returned, taken;
      }
      if next.Some? {
        var at := IndexOf(parties, next.value.peer);
        if at.None? {
          return ProxyPanic, None;
        }
        var msg := next.value.(index := at.value);
        if room {
          forwarded := forwarded + [msg];
        }
        return Forwarded(msg), None;
      }
      out := Nothing;
    }
  }
}
