/** The daemon as an object over the stations of its rooms: one method for each arm
    of the loop and for each await inside an arm. Every arm does what the state
    machine does and keeps what its runs keep. */
module RuntimeDaemon {
  import opened Basics
  import opened PeerOrder
  import opened Peersets
  import opened Coordination
  import opened Daemon
  import opened RoomLifecycle
  import Broadcasts

  /** A state the daemon can be in after some run. */
  ghost predicate Reached(c: Config, s: State) {
    exists states: seq<State>, steps: seq<Step> :: Run(c, states, steps) && states[|steps|] == s
  }

  lemma InitReached(c: Config)
    requires Distinct(c.rooms)
    ensures Reached(c, Init(c.rooms))
  {
    assert Run(c, [Init(c.rooms)], []);
  }

  lemma StepReached(c: Config, s: State, a: Step)
    requires Reached(c, s) && Enabled(c, s, a)
    ensures Reached(c, Apply(c, s, a))
  {
    var states: seq<State>, steps: seq<Step> :| Run(c, states, steps) && states[|steps|] == s;
    var states', steps' := RoomLifecycle.Extend(c, states, steps, a);
  }

  lemma JoinReached(c: Config, s: State, msg: Option<RoomMessage>, timeout: bool, out: Phase2Msg)
    requires Reached(c, s) && s.control.Joining? && out == Phase2Poll(msg, timeout, c.local, c.valid)
    ensures Reached(c, AfterJoin(c, s, out))
  {
    StepReached(c, s, PollJoin(msg, timeout));
  }

  lemma NegotiationReached(c: Config, s: State, response: Option<Broadcasts.Answer>, timeout: bool, order: seq<PeerId>,
                           out: NegotiationMsg)
    requires Reached(c, s) && Enabled(c, s, PollNegotiation(response, timeout, order))
    requires out == NegotiationPoll(s.control.g, response, timeout, order, c.local)
    ensures Reached(c, AfterNegotiation(c, s, out))
  {
    StepReached(c, s, PollNegotiation(response, timeout, order));
  }

  /** What holds of every state a daemon can be in, short of a panic. */
  lemma ReachedKeeps(c: Config, s: State)
    requires Reached(c, s)
    ensures Table(s) && Proxied(s)
    ensures s.control.Down?
         || (Exclusive(c, s) && Distinct(Held(s)) && Elems(Held(s)) == Elems(c.rooms) && Accounted(s))
  {
    var states: seq<State>, steps: seq<Step> :| Run(c, states, steps) && states[|steps|] == s;
    RoomExclusivity(c, states, steps, |steps|);
    RunProxied(c, states, steps, |steps|);
    RunTable(c, states, steps, |steps|);
    RunAccounted(c, states, steps, |steps|);
  }

  /** No two computations of a daemon share a room. */
  lemma ReachedOneComputation(c: Config, s: State, e: nat, f: nat)
    requires Reached(c, s) && !s.control.Down? && e < |s.execs| && f < |s.execs| && e != f
    ensures s.execs[e].id != s.execs[f].id
  {
    ReachedKeeps(c, s);
    ComputationsApart(s, e, f);
  }

  lemma ReachedMailboxes(c: Config, s: State)
    requires Reached(c, s)
    ensures Mailboxes(s)
  {
    ReachedKeeps(c, s);
  }

  // ---------- the stations as values ----------

  ghost predicate Waiters(s: seq<Phase1Channel>)
    reads s
  {
    && (forall i :: 0 <= i < |s| ==> s[i].rx.Some?)
    && (forall i, j :: 0 <= i < j < |s| ==> s[i] != s[j])
  }

  ghost function Waits(s: seq<Phase1Channel>): (r: seq<Phase1>)
    requires Waiters(s)
    reads s
    ensures |r| == |s| && forall i :: 0 <= i < |s| ==> r[i] == s[i].Value()
  {
    seq(|s|, i requires 0 <= i < |s| && s[i].rx.Some? reads s => s[i].Value())
  }

  ghost predicate Forwarders(s: seq<ReceiverProxy>)
    reads s
  {
    && (forall i :: 0 <= i < |s| ==> s[i].rx.Some?)
    && (forall i, j :: 0 <= i < j < |s| ==> s[i] != s[j])
  }

  ghost function Forwards(s: seq<ReceiverProxy>): (r: seq<Proxy>)
    requires Forwarders(s)
    reads s
    ensures |r| == |s| && forall i :: 0 <= i < |s| ==> r[i] == s[i].Value()
  {
    seq(|s|, i requires 0 <= i < |s| && s[i].rx.Some? reads s => s[i].Value())
  }

  class Runtime {
    const config: Config
    var roomsRpc: map<RoomId, nat>
    var roomsCoordination: seq<Phase1Channel>
    var networkProxies: seq<ReceiverProxy>
    var protocolExecutions: seq<Exec>
    var phase2: Phase2Chan?
    var negotiation: NegotiationChan?
    var down: bool
    var answers: seq<Answer>
    var dropped: seq<nat>
    var accepted: seq<nat>
    var next: nat
    var acknowledged: seq<nat>
    ghost var Repr: set<object>

    ghost predicate Owned()
      reads this
    {
      && (forall j :: 0 <= j < |roomsCoordination| ==> roomsCoordination[j] in Repr)
      && (forall j :: 0 <= j < |networkProxies| ==> networkProxies[j] in Repr)
      && (phase2 != null ==> phase2 in Repr) && (negotiation != null ==> negotiation in Repr)
    }

    /** The stations are objects of their own and hold their rooms' receivers. */
    ghost predicate Wired()
      reads this, Repr
    {
      && Owned() && Waiters(roomsCoordination) && Forwarders(networkProxies)
      && (phase2 != null ==> down || phase2.rx.Some?)
      && (negotiation != null ==> down || (negotiation.rx.Some? && negotiation.state.Some?))
    }

    ghost function AwaitedArm(): Control
      requires Wired()
      reads this, Repr
    {
      if down then Down
      else if phase2 != null then Joining(phase2.id, phase2.rx.value)
      else if negotiation != null then Proposing(negotiation.id, negotiation.rx.value, negotiation.state.value)
      else Idle
    }

    ghost function View(): State
      requires Wired()
      reads this, Repr
    {
      State(roomsRpc, Waits(roomsCoordination), Forwards(networkProxies), protocolExecutions, AwaitedArm(),
            answers, dropped, accepted, next)
    }

    ghost predicate Valid()
      reads this, Repr
    {
      Wired() && Reached(config, View())
    }

    method AddWaiting(id: RoomId, rx: Receiver)
      requires Wired()
      modifies this`roomsCoordination, this`Repr
      ensures Wired() && fresh(Repr - old(Repr))
      ensures View() == old(View()).(coord := old(View()).coord + [Phase1(id, rx, next, None)])
    {
      var channel := new Phase1Channel(id, rx, next);
      roomsCoordination := roomsCoordination + [channel];
      Repr := Repr + {channel};
    }

    /** Makes the room's phase 1 channel; an unregistered sender is dropped at once. */
    method ParkRoom(id: RoomId, rx: Receiver, register: bool)
      requires Wired() && phase2 == null && negotiation == null && !down
      modifies this`roomsCoordination, this`roomsRpc, this`next, this`Repr
      ensures Wired() && fresh(Repr - old(Repr))
      ensures View() == Park(old(View()), id, rx, register)
    {
      AddWaiting(id, rx);
      if register {
        roomsRpc := roomsRpc[id := next];
      }
      next := next + 1;
    }

    /** Every room starts in phase 1, its sender in the table. */
    method ParkAll()
      requires Wired() && View() == Init([]) && !down && phase2 == null && negotiation == null
      modifies this`roomsCoordination, this`roomsRpc, this`next, this`Repr
      ensures Wired() && fresh(Repr - old(Repr)) && View() == Init(config.rooms)
    {
      for i := 0 to |config.rooms|
        invariant Wired() && fresh(Repr - old(Repr)) && View() == Init(config.rooms[..i])
      {
        ParkRoom(config.rooms[i], Receiver(config.rooms[i]), true);
        assert config.rooms[..i + 1][..i] == config.rooms[..i];
      }
      assert config.rooms[..|config.rooms|] == config.rooms;
    }

    constructor (config: Config)
      requires Distinct(config.rooms)
      ensures this.config == config && Valid() && fresh(Repr) && acknowledged == []
      ensures View() == Init(config.rooms)
    {
      this.config := config;
      roomsRpc, roomsCoordination, networkProxies, protocolExecutions := map[], [], [], [];
      phase2, negotiation, down := null, null, false;
      answers, dropped, accepted, next, acknowledged := [], [], [], 0, [];
      Repr := {};
      new;
      ParkAll();
      InitReached(config);
    }

    method Reply(done: nat, ok: bool)
      requires Wired()
      modifies this`answers
      ensures Wired() && Repr == old(Repr)
      ensures View() == old(View()).(answers := old(answers) + [Answer(done, ok)])
    {
      answers := answers + [Answer(done, ok)];
    }

    /** The waiting room whose request channel this is, if it still waits. */
    method FindMailbox(mailbox: nat) returns (ch: Phase1Channel?)
      requires Wired()
      ensures ch != null ==> ch in roomsCoordination && ch.mailbox == mailbox
      ensures ch != null <==> HasMailbox(Waits(roomsCoordination), mailbox)
    {
      for i := 0 to |roomsCoordination|
        invariant forall j :: 0 <= j < i ==> roomsCoordination[j].mailbox != mailbox
      {
        if roomsCoordination[i].mailbox == mailbox {
          assert Waits(roomsCoordination)[i].mailbox == mailbox;
          return roomsCoordination[i];
        }
      }
      return null;
    }

    /** Puts a request into a waiting room's mailbox. */
    method PutLetter(ch: Phase1Channel, rpc: LocalRpc)
      requires Wired() && ch in roomsCoordination && Mailboxes(View())
      modifies ch`letter
      ensures Wired() && Repr == old(Repr)
      ensures View() == old(View()).(coord := Deliver(old(View()).coord, ch.mailbox, rpc))
    {
      ghost var before := View();
      ghost var at :| 0 <= at < |roomsCoordination| && roomsCoordination[at] == ch;
      ch.letter := Some(rpc);
      forall j | 0 <= j < |before.coord|
        ensures View().coord[j] == Deliver(before.coord, ch.mailbox, rpc)[j]
      {
        if j != at {
          assert before.coord[j].mailbox != before.coord[at].mailbox;
        }
      }
    }

    method UseEntry(room: RoomId)
      requires Wired()
      modifies this`roomsRpc
      ensures Wired() && Repr == old(Repr) && View() == old(View()).(rpc := old(roomsRpc) - {room})
    {
      roomsRpc := roomsRpc - {room};
    }

    /** A request for a room in the table, for a known protocol: its entry is used up. */
    method HandOver(room: RoomId, rpc: LocalRpc)
      requires Wired() && Mailboxes(View()) && room in roomsRpc
      modifies this`roomsRpc, this`answers, roomsCoordination
      ensures Wired() && Repr == old(Repr)
      ensures var s := old(View());
        View() == if HasMailbox(s.coord, s.rpc[room])
                  then s.(rpc := s.rpc - {room}, coord := Deliver(s.coord, s.rpc[room], rpc))
                  else s.(rpc := s.rpc - {room}, answers := s.answers + [Answer(rpc.done, false)])
    {
      var onRpc := roomsRpc[room];
      var ch := FindMailbox(onRpc);
      UseEntry(room);
      if ch != null {
        PutLetter(ch, rpc);
      } else {
        Reply(rpc.done, false);
      }
    }

    method TakeRequest(room: RoomId, known: bool, rpc: LocalRpc)
      requires Wired() && Mailboxes(View())
      modifies this`accepted, this`roomsRpc, this`answers, roomsCoordination
      ensures Wired() && Repr == old(Repr)
      ensures View() == OnRequest(old(View()), room, known, rpc)
    {
      accepted := accepted + [rpc.done];
      if room in roomsRpc && known {
        HandOver(room, rpc);
      } else {
        Reply(rpc.done, false);
      }
    }

    /** The loop's arm for a local request. */
    method RequestComputation(room: RoomId, known: bool, rpc: LocalRpc)
      requires Valid() && Enabled(config, View(), Request(room, known, rpc))
      modifies this, Repr
      ensures Valid() && Repr == old(Repr) && acknowledged == old(acknowledged)
      ensures View() == OnRequest(old(View()), room, known, rpc)
    {
      ReachedMailboxes(config, View());
      StepReached(config, View(), Request(room, known, rpc));
      TakeRequest(room, known, rpc);
    }

    /** Idle, with channel i of the collection polled to its end: it has given its
        receiver away, and everything else is as in s. */
    ghost predicate Polled(s: State, i: nat)
      reads this, Repr
    {
      && Owned() && phase2 == null && negotiation == null && !down && s.control.Idle?
      && i < |roomsCoordination| == |s.coord|
      && (forall j :: 0 <= j < |s.coord| && j != i ==>
            roomsCoordination[j].rx.Some? && roomsCoordination[j].Value() == s.coord[j])
      && (forall j, k :: 0 <= j < k < |s.coord| ==> roomsCoordination[j] != roomsCoordination[k])
      && Forwarders(networkProxies)
      && s.(coord := []) == State(roomsRpc, [], Forwards(networkProxies), protocolExecutions, Idle,
                                  answers, dropped, accepted, next)
    }

    /** Takes a channel that has come to its end out of the collection. */
    method LeaveCoordination(ghost s: State, i: nat)
      requires Polled(s, i)
      modifies this`roomsCoordination
      ensures Wired() && Repr == old(Repr) && View() == s.(coord := Without(s.coord, i))
    {
      ghost var before := roomsCoordination;
      roomsCoordination := Without(roomsCoordination, i);
      assert forall j :: 0 <= j < |roomsCoordination| ==> roomsCoordination[j] == before[if j < i then j else j + 1];
    }

    method PollTheRoom(ghost s: State, i: nat, msg: Option<RoomMessage>)
      returns (out: Phase1Msg, taken: Option<Receiver>, letter: Option<LocalRpc>)
      requires Wired() && View() == s && s.control.Idle? && i < |roomsCoordination|
      modifies roomsCoordination[i]
      ensures Repr == old(Repr) && i < |roomsCoordination| == |s.coord|
      ensures out == RoomPoll(s, i, msg)
        && letter == s.coord[i].letter
      ensures out.FromRemote? || out.FromLocal? ==>
        Polled(s, i) && taken == Some(s.coord[i].rx) && roomsCoordination[i].id == s.coord[i].id
      ensures !(out.FromRemote? || out.FromLocal?) ==> taken == None && Wired() && View() == s
    {
      var ch := roomsCoordination[i];
      letter := ch.letter;
      out, taken := ch.Poll(msg, ch.mailbox in roomsRpc.Values);
    }

    method TakeRoom(i: nat, msg: Option<RoomMessage>, known: bool) returns (out: Phase1Msg)
      requires Wired() && AwaitedArm().Idle? && i < |roomsCoordination|
      modifies this, roomsCoordination[i]
      ensures out == RoomPoll(old(View()), i, msg)
      ensures Wired() && fresh(Repr - old(Repr))
      ensures View() == AfterRoom(config, old(View()), i, out, known)
      ensures acknowledged == if out.FromRemote? && known then old(acknowledged) + [out.msg.tx] else old(acknowledged)
    {
      ghost var s := View();
      var taken, letter;
      out, taken, letter := PollTheRoom(s, i, msg);
      match out {
        case StillWaiting =>
        case Phase1Panic => Panic();
        case FromRemote(m) =>
          RoomFromRemote(s, i, m, letter, taken.value, known);
          if known {
            Acknowledge(m.tx);
          }
        case FromLocal(rpc) => RoomFromLocal(s, i, rpc, taken.value, known);
      }
    }

    /** The empty answer that consents to a proposal. */
    method Acknowledge(tx: nat)
      requires Wired()
      modifies this`acknowledged
      ensures Wired() && Repr == old(Repr) && View() == old(View())
      ensures acknowledged == old(acknowledged) + [tx]
    {
      acknowledged := acknowledged + [tx];
    }

    method Panic()
      requires Wired()
      modifies this`down
      ensures Wired() && Repr == old(Repr) && View() == old(View()).(control := Down)
    {
      down := true;
    }

    /** A remote proposal takes the channel out of the collection, and with it any
        request in its mailbox. */
    method LeaveOvertaken(ghost s: State, i: nat, letter: Option<LocalRpc>)
      requires Polled(s, i) && letter == s.coord[i].letter
      modifies this`roomsCoordination, this`dropped
      ensures Wired() && Repr == old(Repr)
      ensures View() == s.(coord := Without(s.coord, i), dropped := s.dropped + LetterDone(s.coord[i]))
    {
      LeaveCoordination(s, i);
      if letter.Some? {
        Drop(letter.value.done);
      } else {
        assert s.dropped + [] == s.dropped;
      }
    }

    method RoomFromRemote(ghost s: State, i: nat, m: RoomMessage, letter: Option<LocalRpc>, rx: Receiver, known: bool)
      requires Polled(s, i) && letter == s.coord[i].letter && rx == s.coord[i].rx
      requires roomsCoordination[i].id == s.coord[i].id
      modifies this
      ensures Wired() && fresh(Repr - old(Repr)) && acknowledged == old(acknowledged)
      ensures View() == AfterRoom(config, s, i, FromRemote(m), known)
    {
      var id := roomsCoordination[i].id;
      LeaveOvertaken(s, i, letter);
      JoinOrRefuse(id, rx, known);
    }

    /** A completion handle that goes unanswered. */
    method Drop(done: nat)
      requires Wired()
      modifies this`dropped
      ensures Wired() && Repr == old(Repr) && View() == old(View()).(dropped := old(dropped) + [done])
    {
      dropped := dropped + [done];
    }

    method RoomFromLocal(ghost s: State, i: nat, rpc: LocalRpc, rx: Receiver, known: bool)
      requires Polled(s, i) && rx == s.coord[i].rx
      requires roomsCoordination[i].id == s.coord[i].id
      modifies this
      ensures Wired() && fresh(Repr - old(Repr)) && acknowledged == old(acknowledged)
      ensures View() == AfterRoom(config, s, i, FromLocal(rpc), known)
    {
      var id := roomsCoordination[i].id;
      LeaveCoordination(s, i);
      var channel := new NegotiationChan(id, rx, rpc, config.local);
      negotiation := channel;
      Repr := Repr + {channel};
    }

    /** A proposal for an unknown protocol is refused: its phase 2 channel is aborted. */
    method JoinOrRefuse(id: RoomId, rx: Receiver, known: bool)
      requires Wired() && AwaitedArm().Idle?
      modifies this
      ensures Wired() && fresh(Repr - old(Repr)) && acknowledged == old(acknowledged)
      ensures View() == if known then old(View()).(control := Joining(id, rx)) else Park(old(View()), id, rx, true)
    {
      var channel := new Phase2Chan(id, rx);
      if known {
        phase2 := channel;
        Repr := Repr + {channel};
      } else {
        var back := channel.Abort();
        ParkRoom(id, back, true);
      }
    }

    /** The loop's arm for a phase 1 channel, up to the await. The proposal a poll takes
        up for a known protocol, and no other, is answered at once. */
    method PollCoordination(i: nat, msg: Option<RoomMessage>, known: bool) returns (out: Phase1Msg)
      requires Valid() && Enabled(config, View(), PollRoom(i, msg, known))
      modifies this, Repr
      ensures out == RoomPoll(old(View()), i, msg)
      ensures Valid() && fresh(Repr - old(Repr))
      ensures View() == AfterRoom(config, old(View()), i, out, known)
      ensures acknowledged == if out.FromRemote? && known then old(acknowledged) + [out.msg.tx] else old(acknowledged)
    {
      StepReached(config, View(), PollRoom(i, msg, known));
      out := TakeRoom(i, msg, known);
    }

    /** Everything but the awaited arm is as in s. */
    ghost predicate Besides(s: State)
      reads this, Repr
    {
      && Owned() && Waiters(roomsCoordination) && Forwarders(networkProxies)
      && s == State(roomsRpc, Waits(roomsCoordination), Forwards(networkProxies), protocolExecutions, s.control,
                    answers, dropped, accepted, next)
    }

    /** The awaited arm has come to its end. */
    method Release(ghost s: State)
      requires Besides(s) && !down
      modifies this`phase2, this`negotiation
      ensures Wired() && Repr == old(Repr) && View() == s.(control := Idle)
      ensures phase2 == null && negotiation == null
    {
      phase2, negotiation := null, null;
    }

    method AddProxy(id: RoomId, rx: Receiver, parties: Peerset)
      requires Wired()
      modifies this`networkProxies, this`Repr
      ensures Wired() && fresh(Repr - old(Repr))
      ensures View() == old(View()).(proxies := old(View()).proxies + [Proxy(id, rx, next, parties)])
    {
      var proxy := new ReceiverProxy(id, rx, next, parties);
      networkProxies := networkProxies + [proxy];
      Repr := Repr + {proxy};
    }

    /** The proxy and the execution of a session. */
    method Start(id: RoomId, rx: Receiver, parties: Peerset, body: Bytes, n: nat, done: Option<nat>)
      requires Wired() && AwaitedArm().Idle?
      modifies this
      ensures Wired() && fresh(Repr - old(Repr)) && acknowledged == old(acknowledged)
      ensures View() == Launch(config, old(View()), id, rx, parties, body, n, done)
    {
      if !CanStart(config.local, parties) {
        Panic();
        return;
      }
      AddProxy(id, rx, parties);
      protocolExecutions := protocolExecutions + [Exec(id, next, done, parties, body, n)];
      next := next + 1;
    }

    /** What becomes of a phase 2 channel that has given its receiver away. */
    method JoinEnds(ghost s: State, id: RoomId, rx: Receiver, out: Phase2Msg)
      requires Besides(s) && !down && s.control == Joining(id, rx) && (out.Started? || out.Aborted?)
      modifies this
      ensures Wired() && fresh(Repr - old(Repr)) && acknowledged == old(acknowledged)
      ensures View() == AfterJoin(config, s, out)
    {
      Release(s);
      match out {
        case Started(parties, body) => Start(id, rx, parties, body, |parties.peers|, None);
        case Aborted => ParkRoom(id, rx, id in roomsRpc);
        case StillJoining => assert false;
        case Phase2Panic => assert false;
      }
    }

    /** The rest of the arm once the phase 2 channel has been polled. */
    method JoinGoesOn(ghost s: State, id: RoomId, out: Phase2Msg, taken: Option<Receiver>)
      requires JoinPolled(s, id, out, taken)
      requires Reached(config, AfterJoin(config, s, out))
      modifies this
      ensures Valid() && fresh(Repr - old(Repr)) && acknowledged == old(acknowledged)
      ensures View() == AfterJoin(config, s, out)
    {
      if taken.Some? {
        JoinEnds(s, id, taken.value, out);
      } else if out.Phase2Panic? {
        Panic();
      }
    }

    /** The phase 2 channel has been polled: what it said, and the receiver if it gave it away. */
    ghost predicate JoinPolled(s: State, id: RoomId, out: Phase2Msg, taken: Option<Receiver>)
      reads this, Repr
    {
      && Besides(s) && !down && s.control.Joining? && s.control.id == id
      && (out.Started? || out.Aborted? ==> taken == Some(s.control.rx))
      && (!(out.Started? || out.Aborted?) ==> taken == None && Wired() && View() == s)
    }

    method PollPhase2(ghost s: State, msg: Option<RoomMessage>, timeout: bool)
      returns (id: RoomId, out: Phase2Msg, taken: Option<Receiver>)
      requires Valid() && View() == s && s.control.Joining?
      modifies phase2
      ensures acknowledged == old(acknowledged) && Repr == old(Repr)
      ensures JoinPolled(s, id, out, taken) && Reached(config, AfterJoin(config, s, out))
      ensures out == Phase2Poll(msg, timeout, config.local, config.valid)
    {
      id := phase2.id;
      out, taken := phase2.Poll(msg, timeout, config.local, config.valid);
      JoinReached(config, s, msg, timeout, out);
    }

    /** One poll of the phase 2 channel the loop awaits. */
    method AwaitPhase2(msg: Option<RoomMessage>, timeout: bool) returns (out: Phase2Msg)
      requires Valid() && View().control.Joining?
      modifies this, Repr
      ensures out == Phase2Poll(msg, timeout, config.local, config.valid)
      ensures Valid() && fresh(Repr - old(Repr)) && acknowledged == old(acknowledged)
      ensures View() == AfterJoin(config, old(View()), out)
    {
      ghost var s := View();
      var id, taken;
      id, out, taken := PollPhase2(s, msg, timeout);
      JoinGoesOn(s, id, out, taken);
    }

    /** Giving up drops the request's completion handle and parks the room. */
    method GiveUp(id: RoomId, rx: Receiver, rpc: LocalRpc)
      requires Wired() && AwaitedArm().Idle?
      modifies this
      ensures Wired() && fresh(Repr - old(Repr)) && acknowledged == old(acknowledged)
      ensures View() == Park(old(View()).(dropped := old(dropped) + [rpc.done]), id, rx, true)
    {
      Drop(rpc.done);
      ParkRoom(id, rx, true);
    }

    /** What becomes of a negotiation that has given its receiver away. */
    method NegotiationEnds(ghost s: State, id: RoomId, rx: Receiver, rpc: LocalRpc, out: NegotiationMsg)
      requires Besides(s) && !down && s.control.Proposing? && s.control.id == id && s.control.rx == rx
      requires s.control.g.rpc == rpc && (out.GaveUp? || out.Assembled?)
      modifies this
      ensures Wired() && fresh(Repr - old(Repr)) && acknowledged == old(acknowledged)
      ensures View() == AfterNegotiation(config, s, out)
    {
      Release(s);
      match out {
        case GaveUp => GiveUp(id, rx, rpc);
        case Assembled(parties, _, _) => Start(id, rx, parties, rpc.args, rpc.n, Some(rpc.done));
        case Pending(_, _) => assert false;
      }
    }

    /** The rest of the arm once the negotiation has been polled. */
    method NegotiationGoesOn(ghost s: State, id: RoomId, rpc: LocalRpc, out: NegotiationMsg, taken: Option<Receiver>)
      requires NegotiationPolled(s, id, rpc, out, taken)
      requires Reached(config, AfterNegotiation(config, s, out))
      modifies this
      ensures Valid() && fresh(Repr - old(Repr)) && acknowledged == old(acknowledged)
      ensures View() == AfterNegotiation(config, s, out)
    {
      if taken.Some? {
        NegotiationEnds(s, id, taken.value, rpc, out);
      }
    }

    ghost predicate NegotiationPolled(s: State, id: RoomId, rpc: LocalRpc, out: NegotiationMsg, taken: Option<Receiver>)
      reads this, Repr
    {
      && Besides(s) && !down && s.control.Proposing? && s.control.id == id && s.control.g.rpc == rpc
      && (!out.Pending? ==> taken == Some(s.control.rx))
      && (out.Pending? ==> taken == None && Wired() && View() == s.(control := Proposing(id, s.control.rx, out.next)))
    }

    method PollTheNegotiation(ghost s: State, response: Option<Broadcasts.Answer>, timeout: bool, order: seq<PeerId>)
      returns (id: RoomId, rpc: LocalRpc, out: NegotiationMsg, taken: Option<Receiver>)
      requires Valid() && View() == s && s.control.Proposing? && Lists(s.control.g, response, order)
      modifies negotiation
      ensures acknowledged == old(acknowledged) && Repr == old(Repr) && NegotiationPolled(s, id, rpc, out, taken)
      ensures Reached(config, AfterNegotiation(config, s, out))
      ensures out == NegotiationPoll(s.control.g, response, timeout, order, config.local)
    {
      id, rpc := negotiation.id, negotiation.state.value.rpc;
      out, taken := negotiation.Poll(response, timeout, order, config.local);
      NegotiationReached(config, s, response, timeout, order, out);
    }

    /** One poll of the negotiation the loop awaits. */
    method AwaitNegotiation(response: Option<Broadcasts.Answer>, timeout: bool, order: seq<PeerId>)
      returns (out: NegotiationMsg)
      requires Valid() && View().control.Proposing? && Lists(View().control.g, response, order)
      modifies this, Repr
      ensures out == NegotiationPoll(old(View()).control.g, response, timeout, order, config.local)
      ensures Valid() && fresh(Repr - old(Repr)) && acknowledged == old(acknowledged)
      ensures View() == AfterNegotiation(config, old(View()), out)
    {
      ghost var s := View();
      var id, rpc, taken;
      id, rpc, out, taken := PollTheNegotiation(s, response, timeout, order);
      NegotiationGoesOn(s, id, rpc, out, taken);
    }

    method RemoveExec(e: nat) returns (done: Option<nat>)
      requires Wired() && e < |protocolExecutions|
      modifies this`protocolExecutions
      ensures Wired() && Repr == old(Repr) && done == old(protocolExecutions[e].done)
      ensures View() == old(View()).(execs := Without(old(protocolExecutions), e))
    {
      done := protocolExecutions[e].done;
      protocolExecutions := Without(protocolExecutions, e);
    }

    method EndStep(e: nat, how: Ending)
      requires Wired() && e < |protocolExecutions|
      modifies this`protocolExecutions, this`answers, this`dropped
      ensures Wired() && Repr == old(Repr)
      ensures View() == OnEnd(old(View()), e, how)
    {
      var done := RemoveExec(e);
      if done.Some? {
        match how {
          case AgentDone(ok) => Reply(done.value, ok);
          case EchoFailure => Drop(done.value);
        }
      }
    }

    /** The loop's arm for a computation that has come to its end. */
    method ExecutionEnded(e: nat, how: Ending)
      requires Valid() && Enabled(config, View(), EndExec(e, how))
      modifies this, Repr
      ensures Valid() && Repr == old(Repr) && acknowledged == old(acknowledged)
      ensures View() == OnEnd(old(View()), e, how)
    {
      StepReached(config, View(), EndExec(e, how));
      EndStep(e, how);
    }

    /** Idle, with proxy x polled to its end. */
    ghost predicate ProxyPolled(s: State, x: nat)
      reads this, Repr
    {
      && Owned() && phase2 == null && negotiation == null && !down && s.control.Idle?
      && x < |networkProxies| == |s.proxies|
      && (forall j :: 0 <= j < |s.proxies| && j != x ==>
            networkProxies[j].rx.Some? && networkProxies[j].Value() == s.proxies[j])
      && (forall j, k :: 0 <= j < k < |s.proxies| ==> networkProxies[j] != networkProxies[k])
      && Waiters(roomsCoordination)
      && s.(proxies := []) == State(roomsRpc, Waits(roomsCoordination), [], protocolExecutions, Idle,
                                    answers, dropped, accepted, next)
    }

    method LeaveProxies(ghost s: State, x: nat)
      requires ProxyPolled(s, x)
      modifies this`networkProxies
      ensures Wired() && Repr == old(Repr) && View() == s.(proxies := Without(s.proxies, x))
    {
      ghost var before := networkProxies;
      networkProxies := Without(networkProxies, x);
      assert forall j :: 0 <= j < |networkProxies| ==> networkProxies[j] == before[if j < x then j else j + 1];
    }

    /** Nobody holds the receiver the proxy forwards to. */
    method IsClosed(fwd: nat) returns (closed: bool)
      requires Wired()
      ensures closed <==> !Listening(View(), fwd)
    {
      closed := forall e :: 0 <= e < |protocolExecutions| ==> protocolExecutions[e].fwd != fwd;
    }

    method ProxyEnds(ghost s: State, x: nat, id: RoomId, rx: Receiver)
      requires ProxyPolled(s, x) && id == s.proxies[x].id && rx == s.proxies[x].rx
      modifies this
      ensures Wired() && fresh(Repr - old(Repr)) && acknowledged == old(acknowledged)
      ensures View() == Park(s.(proxies := Without(s.proxies, x)), id, rx, true)
    {
      LeaveProxies(s, x);
      ParkRoom(id, rx, true);
    }

    method PollTheProxy(ghost s: State, x: nat, msg: Option<RoomMessage>, room: bool)
      returns (id: RoomId, out: ProxyMsg, taken: Option<Receiver>)
      requires Wired() && View() == s && s.control.Idle? && x < |networkProxies|
      modifies networkProxies[x]
      ensures Repr == old(Repr) && x < |s.proxies| && id == s.proxies[x].id
      ensures out == ProxyPoll(!Listening(s, s.proxies[x].fwd), msg, s.proxies[x].parties)
      ensures out.Returned? ==> taken == Some(s.proxies[x].rx) && ProxyPolled(s, x)
      ensures !out.Returned? ==> taken == None && Wired() && View() == s
    {
      var proxy := networkProxies[x];
      id := proxy.id;
      var closed := IsClosed(proxy.fwd);
      out, taken := proxy.Poll(closed, msg, room);
    }

    method ProxyStep(x: nat, msg: Option<RoomMessage>, room: bool)
      requires Wired() && AwaitedArm().Idle? && x < |networkProxies|
      modifies this, networkProxies[x]
      ensures Wired() && fresh(Repr - old(Repr)) && acknowledged == old(acknowledged)
      ensures View() == OnProxy(old(View()), x, msg)
    {
      ghost var s := View();
      var id, out, taken := PollTheProxy(s, x, msg, room);
      if taken.Some? {
        ProxyEnds(s, x, id, taken.value);
      } else if out.ProxyPanic? {
        Panic();
      }
    }

    /** The loop's arm for a proxy; `room` tells whether its forwarding channel has room. */
    method PollNetworkProxy(x: nat, msg: Option<RoomMessage>, room: bool)
      requires Valid() && Enabled(config, View(), PollProxy(x, msg))
      modifies this, Repr
      ensures Valid() && fresh(Repr - old(Repr)) && acknowledged == old(acknowledged)
      ensures View() == OnProxy(old(View()), x, msg)
    {
      StepReached(config, View(), PollProxy(x, msg));
      ProxyStep(x, msg, room);
    }
  }
}
