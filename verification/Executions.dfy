/** One poll of a running computation: one message from the agent goes out, one
    message from the network comes in, and both kinds of broadcast go to the echo
    gadget as well. */
module Executions {
  import opened Basics
  import opened PeerOrder
  import opened Peersets
  import opened Messages
  import opened Coordination
  import opened Echo
  import opened PeersetCachers

  datatype Routing = ToAll | ToParty(index: nat)

  datatype OutgoingMessage = OutgoingMessage(body: Bytes, to: Routing, sent: Option<nat>)

  datatype IncomingMessage = IncomingMessage(from: nat, to: Routing, body: Bytes)

  /** A request handed to the network service; `chan` collects the outcomes of a multicast. */
  datatype NetworkSend =
    | Direct(target: PeerId, messageType: MessageType, payload: Bytes)
    | Multicast(targets: seq<PeerId>, messageType: MessageType, payload: Bytes, chan: nat)

  /** Incoming broadcasts carry their acknowledgement channel, the own one its outcome channel. */
  type EchoItem = EchoMessage<nat, nat>

  datatype State = State(parties: Peerset, i: nat, n: nat,
                         fromNetwork: seq<RoomMessage>, toProtocol: seq<IncomingMessage>,
                         fromProtocol: seq<OutgoingMessage>, echo: seq<EchoItem>, sends: seq<NetworkSend>,
                         acks: seq<(nat, Bytes)>, signalled: seq<nat>, nextChan: nat)

  /** Capacity asked for of the echo channel and of the channel to the agent. */
  function EchoCapacity(e: State): nat { e.n }
  function AgentCapacity(e: State): nat { if e.n == 0 then 0 else e.n - 1 }

  /** The agent's next message. None is a panic: a party number out of range, or no
      room on the echo channel. A broadcast's `sent` handle is dropped unsignalled. */
  function Outward(e: State): Option<State> {
    if e.fromProtocol == [] then Some(e) else
    var m := e.fromProtocol[0];
    var e1 := e.(fromProtocol := e.fromProtocol[1..]);
    match m.to
    case ToParty(j) =>
      if j == 0 || j > |e.parties.peers| then None
      else Some(e1.(sends := e.sends + [Direct(e.parties.peers[j - 1], Computation, m.body)],
                    signalled := if m.sent.Some? then e.signalled + [m.sent.value] else e.signalled))
    case ToAll =>
      if |e.echo| >= EchoCapacity(e) then None
      else Some(e1.(sends := e.sends
                      + [Multicast(Remotes(e.parties.peers, e.parties.local), Coordination, m.body, e.nextChan)],
                    echo := e.echo + [EchoMessage(e.i + 1, m.body, Outgoing(e.nextChan))],
                    nextChan := e.nextChan + 1))
  }

  /** The network's next message. None is a panic: a full echo or agent channel. */
  function Inward(e: State): Option<State> {
    if e.fromNetwork == [] then Some(e) else
    var m := e.fromNetwork[0];
    if (m.isBroadcast && |e.echo| >= EchoCapacity(e)) || |e.toProtocol| >= AgentCapacity(e) then None
    else
      var x := IncomingMessage(m.index + 1, if m.isBroadcast then ToAll else ToParty(e.i + 1), m.payload);
      var e1 := e.(fromNetwork := e.fromNetwork[1..], toProtocol := e.toProtocol + [x]);
      Some(if m.isBroadcast then e1.(echo := e.echo + [EchoMessage(m.index + 1, m.payload, Incoming(m.tx))])
           else e1.(acks := e.acks + [(m.tx, [])]))
  }

  function Polled(e: State): Option<State> {
    match Outward(e)
    case None => None
    case Some(e1) => Inward(e1)
  }

  /** What the agent's peerset asks of the room's cache; the names are of reply channels. */
  datatype CacheAsk = ReadFromCache(tx: nat) | WriteToCache(peerset: Peerset, tx: nat)

  datatype CacheReply = Recalled(tx: nat, peerset: Option<Peerset>) | Stored(tx: nat)

  /** The agent's dealings with the cache: asked, answered, and the files below. */
  datatype Cache = Cache(asks: seq<CacheAsk>, replies: seq<CacheReply>, files: map<string, Bytes>)

  /** One request of the agent to the cache. None is a panic: a malformed id in the
      file, or a peerset with too few indexes to write. */
  function Served(k: Cache, room: string, local: PeerId, valid: PeerId -> bool): Option<Cache> {
    if k.asks == [] then Some(k) else
    var k1 := k.(asks := k.asks[1..]);
    match k.asks[0]
    case ReadFromCache(tx) =>
      (match Cached(k.files, room, local, valid)
       case Panicked => None
       case Done(p) => Some(k1.(replies := k.replies + [Recalled(tx, p)])))
    case WriteToCache(p, tx) =>
      if |p.peers| > |p.indexes| then None
      else Some(k1.(replies := k.replies + [Stored(tx)], files := k.files[room := Flat(p.peers, p.indexes)]))
  }

  lemma Recalls(files: map<string, Bytes>, room: string, local: PeerId, valid: PeerId -> bool, p: Peerset)
    requires room in files && |p.peers| <= |p.indexes| && files[room] == Flat(p.peers, p.indexes)
    requires Ids(p.peers) && forall x :: x in p.peers ==> valid(x)
    ensures Cached(files, room, local, valid) == Done(Some(p.(local := local))) <==> Encodable(p)
  {
    Peersets.RoundTrip(p.(local := local), valid);
  }

  /** A peerset saved and then recalled by the agent comes back as this node sees it,
      exactly when it is encodable. */
  lemma SavedThenRecalled(k: Cache, room: string, local: PeerId, valid: PeerId -> bool, p: Peerset, a: nat, b: nat)
    requires |k.asks| >= 2 && k.asks[0] == WriteToCache(p, a) && k.asks[1] == ReadFromCache(b)
    requires Ids(p.peers) && |p.peers| <= |p.indexes| && forall x :: x in p.peers ==> valid(x)
    ensures var first := Served(k, room, local, valid);
      && first.Some? && first.value.replies == k.replies + [Stored(a)] && first.value.asks == k.asks[1..]
      && (Encodable(p) <==>
          var second := Served(first.value, room, local, valid);
          second.Some? && second.value.replies == first.value.replies + [Recalled(b, Some(p.(local := local)))])
  {
    var first := Served(k, room, local, valid).value;
    assert first.asks[0] == ReadFromCache(b);
    Recalls(first.files, room, local, valid, p);
    var read := Cached(first.files, room, local, valid);
    if read.Done? {
      var second := Served(first, room, local, valid).value;
      assert second.replies == first.replies + [Recalled(b, read.value)];
      assert second.replies[|first.replies|] == Recalled(b, read.value);
    }
  }

  /** What the agent's own future says at the end of the poll. */
  datatype AgentPoll = Working | Finished(result: Result<Bytes, ()>)

  datatype PollResult = StillRunning | Ended(ok: bool) | Crashed

  class ProtocolExecution {
    const roomId: string
    const cacher: PersistentCacher
    const parties: Peerset
    const i: nat
    const n: nat
    var fromNetwork: seq<RoomMessage>
    var toProtocol: seq<IncomingMessage>
    var fromProtocol: seq<OutgoingMessage>
    var echo: seq<EchoItem>
    var pendingFutures: seq<NetworkSend>
    var sends: seq<NetworkSend>
    var acks: seq<(nat, Bytes)>
    var signalled: seq<nat>
    var nextChan: nat
    var asks: seq<CacheAsk>
    var replies: seq<CacheReply>
    var onDone: Option<nat>
    var done: seq<(nat, Result<Bytes, ()>)>

    /** A send not yet driven to its end counts as made. */
    ghost function View(): State
      reads this
    {
      State(parties, i, n, fromNetwork, toProtocol, fromProtocol, echo, sends + pendingFutures, acks, signalled,
        nextChan)
    }

    ghost function CacheView(): Cache
      reads this, cacher
    {
      Cache(asks, replies, cacher.files)
    }

    /** The own number is looked up in the list; a node outside it would panic. */
    constructor (roomId: string, cacher: PersistentCacher, parties: Peerset, onDone: Option<nat>)
      requires parties.local in parties.peers
      ensures this.roomId == roomId && this.cacher == cacher && this.parties == parties && this.onDone == onDone
      ensures done == [] && asks == [] && replies == [] && pendingFutures == []
      ensures Some(i) == IndexOf(parties, parties.local) && n == |parties.peers| % U16
      ensures View() == State(parties, i, n, [], [], [], [], [], [], [], 0)
    {
      this.roomId, this.cacher := roomId, cacher;
      this.parties := parties;
      this.i := IndexOf(parties, parties.local).value;
      this.n := |parties.peers| % U16;
      fromNetwork, toProtocol, fromProtocol, echo := [], [], [], [];
      pendingFutures, sends, acks, signalled, nextChan := [], [], [], [], 0;
      this.onDone := onDone;
      asks, replies, done := [], [], [];
    }

    method ServeCache(valid: PeerId -> bool) returns (ok: bool)
      modifies this`asks, this`replies, cacher
      ensures ok <==> Served(old(CacheView()), roomId, cacher.local, valid).Some?
      ensures ok ==> Served(old(CacheView()), roomId, cacher.local, valid) == Some(CacheView())
    {
      if asks == [] {
        return true;
      }
      var ask := asks[0];
      asks := asks[1..];
      match ask {
        case ReadFromCache(tx) =>
          var p := cacher.ReadPeerset(roomId, valid);
          if p.Panicked? {
            return false;
          }
          replies := replies + [Recalled(tx, p.value)];
        case WriteToCache(p, tx) =>
          if |p.peers| > |p.indexes| {
            return false;
          }
          cacher.WritePeerset(roomId, p);
          replies := replies + [Stored(tx)];
      }
      return true;
    }

    method AddFuture(s: NetworkSend)
      modifies this`pendingFutures
      ensures pendingFutures == old(pendingFutures) + [s]
      ensures sends + pendingFutures == old(sends + pendingFutures) + [s]
    {
      pendingFutures := pendingFutures + [s];
    }

    /** The loop that drives every send to its end before the poll goes on. */
    method Drain()
      modifies this`pendingFutures, this`sends
      ensures pendingFutures == [] && View() == old(View())
    {
      while pendingFutures != []
        invariant sends + pendingFutures == old(sends + pendingFutures)
        decreases |pendingFutures|
      {
        assert pendingFutures == [pendingFutures[0]] + pendingFutures[1..];
        sends, pendingFutures := sends + [pendingFutures[0]], pendingFutures[1..];
      }
    }

    method SendOut() returns (ok: bool)
      modifies this`fromProtocol, this`pendingFutures, this`signalled, this`echo, this`nextChan
      ensures ok <==> Outward(old(View())).Some?
      ensures ok ==> Outward(old(View())) == Some(View())
    {
      if fromProtocol == [] {
        return true;
      }
      var m := fromProtocol[0];
      fromProtocol := fromProtocol[1..];
      match m.to {
        case ToParty(j) =>
          if j == 0 || j > |parties.peers| {
            return false;
          }
          AddFuture(Direct(parties.peers[j - 1], Computation, m.body));
          if m.sent.Some? {
            signalled := signalled + [m.sent.value];
          }
        case ToAll =>
          if |echo| >= n {
            return false;
          }
          AddFuture(Multicast(Remotes(parties.peers, parties.local), Coordination, m.body, nextChan));
          echo := echo + [EchoMessage(i + 1, m.body, Outgoing(nextChan))];
          nextChan := nextChan + 1;
      }
      return true;
    }

    method TakeIn() returns (ok: bool)
      modifies this`fromNetwork, this`toProtocol, this`acks, this`echo
      ensures ok <==> Inward(old(View())).Some?
      ensures ok ==> Inward(old(View())) == Some(View())
    {
      if fromNetwork == [] {
        return true;
      }
      var m := fromNetwork[0];
      fromNetwork := fromNetwork[1..];
      if m.isBroadcast {
        if |echo| >= n {
          return false;
        }
        echo := echo + [EchoMessage(m.index + 1, m.payload, Incoming(m.tx))];
      } else {
        acks := acks + [(m.tx, [])];
      }
      if |toProtocol| + 1 > (if n == 0 then 0 else n - 1) {
        return false;
      }
      toProtocol := toProtocol
        + [IncomingMessage(m.index + 1, if m.isBroadcast then ToAll else ToParty(i + 1), m.payload)];
      return true;
    }

    /** One request to the cache, one message out and every send driven to its end,
        one message in, then the agent. A finished agent reports through the
        completion handle, once. */
    method Poll(agent: AgentPoll, valid: PeerId -> bool) returns (r: PollResult)
      modifies this, cacher
      ensures r.Crashed? <==>
        Served(old(CacheView()), roomId, cacher.local, valid).None? || Polled(old(View())).None?
      ensures !r.Crashed? ==>
        && Served(old(CacheView()), roomId, cacher.local, valid) == Some(CacheView())
        && Polled(old(View())) == Some(View())
        && pendingFutures == []
      ensures r.StillRunning? ==> agent.Working? && onDone == old(onDone) && done == old(done)
      ensures r.Ended? ==> agent.Finished? && r.ok == agent.result.Ok? && onDone == None
      ensures r.Ended? ==>
        done == if old(onDone).Some? then old(done) + [(old(onDone).value, agent.result)] else old(done)
    {
      var ok := ServeCache(valid);
      if !ok {
        return Crashed;
      }
      ok := Traffic();
      if !ok {
        return Crashed;
      }
      r := Report(agent);
    }

    method Report(agent: AgentPoll) returns (r: PollResult)
      modifies this`onDone, this`done
      ensures !r.Crashed?
      ensures r.StillRunning? ==> agent.Working? && onDone == old(onDone) && done == old(done)
      ensures r.Ended? ==> agent.Finished? && r.ok == agent.result.Ok? && onDone == None
      ensures r.Ended? ==>
        done == if old(onDone).Some? then old(done) + [(old(onDone).value, agent.result)] else old(done)
    {
      match agent {
        case Working => return StillRunning;
        case Finished(result) =>
          if onDone.Some? {
            done := done + [(onDone.value, result)];
            onDone := None;
          }
          return Ended(result.Ok?);
      }
    }

    /** Out, driven to its end, and in. */
    method Traffic() returns (ok: bool)
      modifies this`fromProtocol, this`pendingFutures, this`sends, this`signalled, this`echo, this`nextChan,
               this`fromNetwork, this`toProtocol, this`acks
      ensures ok <==> Polled(old(View())).Some?
      ensures ok ==> Polled(old(View())) == Some(View()) && pendingFutures == []
    {
      ok := SendOut();
      if !ok {
        return;
      }
      Drain();
      ok := TakeIn();
    }
  }
}
