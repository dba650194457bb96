/** The daemon's main loop as a state machine over rooms. The loop awaits phase 2
    and negotiation inside its arms, so while it does it polls nothing else. */
module Daemon {
  import opened Basics
  import opened PeerOrder
  import opened Peersets
  import opened Coordination
  import Broadcasts

  /** A computation; `fwd` is the forwarded receiver it holds, n the size of its echo gadget. */
  datatype Exec = Exec(id: RoomId, fwd: nat, done: Option<nat>, parties: Peerset, body: Bytes, n: nat)

  datatype Control =
    | Idle
    | Joining(id: RoomId, rx: Receiver)
    | Proposing(id: RoomId, rx: Receiver, g: Negotiation)
    | Down

  datatype Answer = Answer(done: nat, ok: bool)

  /** `answers` and `dropped` record what became of completion handles, `accepted`
      the handles received; `next` is the next unused channel name. */
  datatype State = State(rpc: map<RoomId, nat>, coord: seq<Phase1>, proxies: seq<Proxy>, execs: seq<Exec>,
                         control: Control, answers: seq<Answer>, dropped: seq<nat>, accepted: seq<nat>, next: nat)

  datatype Config = Config(local: PeerId, valid: PeerId -> bool, rooms: seq<RoomId>)

  datatype Ending = AgentDone(ok: bool) | EchoFailure

  datatype Step =
    | Request(room: RoomId, known: bool, rpc: LocalRpc)
    | PollRoom(i: nat, msg: Option<RoomMessage>, rknown: bool)
    | PollJoin(jmsg: Option<RoomMessage>, jtimeout: bool)
    | PollNegotiation(response: Option<Broadcasts.Answer>, timeout: bool, order: seq<PeerId>)
    | EndExec(e: nat, how: Ending)
    | PollProxy(x: nat, xmsg: Option<RoomMessage>)

  function Without<T>(s: seq<T>, i: nat): (r: seq<T>)
    requires i < |s|
    ensures |r| == |s| - 1
    ensures forall x :: x in r ==> x in s
  {
    s[..i] + s[i + 1..]
  }

  /** A new phase 1 channel for the room, its request sender put in the table or thrown away. */
  function Park(s: State, id: RoomId, rx: Receiver, register: bool): State {
    s.(coord := s.coord + [Phase1(id, rx, s.next, None)], next := s.next + 1, control := Idle,
       rpc := if register then s.rpc[id := s.next] else s.rpc)
  }

  function Init(rooms: seq<RoomId>): State {
    if rooms == [] then State(map[], [], [], [], Idle, [], [], [], 0)
    else var id := rooms[|rooms| - 1]; Park(Init(rooms[..|rooms| - 1]), id, Receiver(id), true)
  }

  predicate HasMailbox(coord: seq<Phase1>, mailbox: nat) {
    exists j :: 0 <= j < |coord| && coord[j].mailbox == mailbox
  }

  function Deliver(coord: seq<Phase1>, mailbox: nat, rpc: LocalRpc): (r: seq<Phase1>)
    ensures |r| == |coord|
    ensures forall j :: 0 <= j < |r| ==>
      r[j] == if coord[j].mailbox == mailbox then coord[j].(letter := Some(rpc)) else coord[j]
  {
    seq(|coord|, j requires 0 <= j < |coord| =>
      if coord[j].mailbox == mailbox then coord[j].(letter := Some(rpc)) else coord[j])
  }

  function OnRequest(s: State, room: RoomId, known: bool, rpc: LocalRpc): State {
    var s1 := s.(accepted := s.accepted + [rpc.done]);
    var refused := s1.(answers := s.answers + [Answer(rpc.done, false)]);
    if room !in s.rpc || !known then refused
    else
      var mailbox := s.rpc[room];
      if HasMailbox(s.coord, mailbox) then s1.(rpc := s.rpc - {room}, coord := Deliver(s.coord, mailbox, rpc))
      else refused.(rpc := s.rpc - {room})
  }

  predicate SenderAlive(s: State, mailbox: nat) {
    mailbox in s.rpc.Values
  }

  function LetterDone(p: Phase1): seq<nat> {
    if p.letter.Some? then [p.letter.value.done] else []
  }

  /** A request overtaken by a remote proposal is dropped with its mailbox. */
  function AfterRoom(c: Config, s: State, i: nat, out: Phase1Msg, known: bool): State
    requires i < |s.coord|
  {
    var p := s.coord[i];
    match out
    case StillWaiting => s
    case Phase1Panic => s.(control := Down)
    case FromRemote(_) =>
      var s1 := s.(coord := Without(s.coord, i), dropped := s.dropped + LetterDone(p));
      if known then s1.(control := Joining(p.id, p.rx)) else Park(s1, p.id, p.rx, true)
    case FromLocal(rpc) =>
      s.(coord := Without(s.coord, i), control := Proposing(p.id, p.rx, NewNegotiation(rpc, c.local)))
  }

  function RoomPoll(s: State, i: nat, msg: Option<RoomMessage>): Phase1Msg
    requires i < |s.coord|
  {
    Phase1Poll(msg, s.coord[i].letter, SenderAlive(s, s.coord[i].mailbox))
  }

  function OnRoom(c: Config, s: State, i: nat, msg: Option<RoomMessage>, known: bool): State
    requires i < |s.coord|
  {
    AfterRoom(c, s, i, RoomPoll(s, i, msg), known)
  }

  /** Sets up the proxy and the execution, or panics trying. */
  function Launch(c: Config, s: State, id: RoomId, rx: Receiver, parties: Peerset, body: Bytes, n: nat,
                  done: Option<nat>): State {
    if !CanStart(c.local, parties) then s.(control := Down)
    else s.(proxies := s.proxies + [Proxy(id, rx, s.next, parties)],
            execs := s.execs + [Exec(id, s.next, done, parties, body, n)],
            control := Idle, next := s.next + 1)
  }

  /** Aborting phase 2 refreshes the room's entry in the table, but makes none. */
  function AfterJoin(c: Config, s: State, out: Phase2Msg): State
    requires s.control.Joining?
  {
    var (id, rx) := (s.control.id, s.control.rx);
    match out
    case StillJoining => s
    case Phase2Panic => s.(control := Down)
    case Started(parties, body) => Launch(c, s, id, rx, parties, body, |parties.peers|, None)
    case Aborted => Park(s, id, rx, id in s.rpc)
  }

  /** Giving up drops the request's completion handle. */
  function AfterNegotiation(c: Config, s: State, out: NegotiationMsg): State
    requires s.control.Proposing?
  {
    var (id, rx, rpc) := (s.control.id, s.control.rx, s.control.g.rpc);
    match out
    case Pending(next, _) => s.(control := Proposing(id, rx, next))
    case GaveUp => Park(s.(dropped := s.dropped + [rpc.done]), id, rx, true)
    case Assembled(parties, _, _) => Launch(c, s, id, rx, parties, rpc.args, rpc.n, Some(rpc.done))
  }

  /** An agent's result is reported; an echo failure drops the handle unanswered. */
  function OnEnd(s: State, e: nat, how: Ending): State
    requires e < |s.execs|
  {
    var s1 := s.(execs := Without(s.execs, e));
    match s.execs[e].done
    case None => s1
    case Some(done) =>
      match how
      case AgentDone(ok) => s1.(answers := s.answers + [Answer(done, ok)])
      case EchoFailure => s1.(dropped := s.dropped + [done])
  }

  predicate Listening(s: State, fwd: nat) {
    exists e :: 0 <= e < |s.execs| && s.execs[e].fwd == fwd
  }

  function OnProxy(s: State, x: nat, msg: Option<RoomMessage>): State
    requires x < |s.proxies|
  {
    var p := s.proxies[x];
    match ProxyPoll(!Listening(s, p.fwd), msg, p.parties)
    case Returned => Park(s.(proxies := Without(s.proxies, x)), p.id, p.rx, true)
    case Forwarded(_) => s
    case Nothing => s
    case ProxyPanic => s.(control := Down)
  }

  ghost predicate Enabled(c: Config, s: State, a: Step) {
    match a
    case Request(_, _, rpc) => s.control.Idle? && rpc.done !in s.accepted
    case PollRoom(i, _, _) => s.control.Idle? && i < |s.coord|
    case PollJoin(_, _) => s.control.Joining?
    case PollNegotiation(response, _, order) => s.control.Proposing? && Lists(s.control.g, response, order)
    case EndExec(e, _) => s.control.Idle? && e < |s.execs|
    case PollProxy(x, _) => s.control.Idle? && x < |s.proxies|
  }

  ghost function Apply(c: Config, s: State, a: Step): State
    requires Enabled(c, s, a)
  {
    match a
    case Request(room, known, rpc) => OnRequest(s, room, known, rpc)
    case PollRoom(i, msg, known) => OnRoom(c, s, i, msg, known)
    case PollJoin(msg, timeout) => AfterJoin(c, s, Phase2Poll(msg, timeout, c.local, c.valid))
    case PollNegotiation(response, timeout, order) =>
      AfterNegotiation(c, s, NegotiationPoll(s.control.g, response, timeout, order, c.local))
    case EndExec(e, how) => OnEnd(s, e, how)
    case PollProxy(x, msg) => OnProxy(s, x, msg)
  }

  ghost predicate Leads(c: Config, s: State, a: Step, t: State) {
    Enabled(c, s, a) && t == Apply(c, s, a)
  }

  ghost predicate Run(c: Config, states: seq<State>, steps: seq<Step>) {
    && Distinct(c.rooms)
    && |states| == |steps| + 1
    && states[0] == Init(c.rooms)
    && forall i :: 0 <= i < |steps| ==> Leads(c, states[i], steps[i], states[i + 1])
  }

  // ---------- who holds a room ----------

  function CoordIds(s: seq<Phase1>): (r: seq<RoomId>)
    ensures |r| == |s| && forall i :: 0 <= i < |s| ==> r[i] == s[i].id
  {
    seq(|s|, i requires 0 <= i < |s| => s[i].id)
  }

  function ProxyIds(s: seq<Proxy>): (r: seq<RoomId>)
    ensures |r| == |s| && forall i :: 0 <= i < |s| ==> r[i] == s[i].id
  {
    seq(|s|, i requires 0 <= i < |s| => s[i].id)
  }

  function ControlIds(k: Control): seq<RoomId> {
    if k.Joining? || k.Proposing? then [k.id] else []
  }

  /** The rooms whose receiver is held in phase 1, by a proxy, or by the arm being awaited. */
  function Held(s: State): seq<RoomId> {
    CoordIds(s.coord) + ProxyIds(s.proxies) + ControlIds(s.control)
  }

  /** No room's receiver travels under another room's name. */
  ghost predicate OwnReceivers(s: State) {
    && (forall j :: 0 <= j < |s.coord| ==> s.coord[j].rx == Receiver(s.coord[j].id))
    && (forall j :: 0 <= j < |s.proxies| ==> s.proxies[j].rx == Receiver(s.proxies[j].id))
    && (s.control.Joining? || s.control.Proposing? ==> s.control.rx == Receiver(s.control.id))
  }

  /** Every room's own receiver is held exactly once. */
  ghost predicate Exclusive(c: Config, s: State) {
    multiset(Held(s)) == multiset(c.rooms) && OwnReceivers(s)
  }

  lemma CoordIdsWithout(s: seq<Phase1>, i: nat)
    requires i < |s|
    ensures multiset(CoordIds(Without(s, i))) == multiset(CoordIds(s)) - multiset{s[i].id}
  {
    assert CoordIds(Without(s, i)) == Without(CoordIds(s), i);
    MultisetRemove(CoordIds(s), i);
  }

  lemma ProxyIdsWithout(s: seq<Proxy>, i: nat)
    requires i < |s|
    ensures multiset(ProxyIds(Without(s, i))) == multiset(ProxyIds(s)) - multiset{s[i].id}
  {
    assert ProxyIds(Without(s, i)) == Without(ProxyIds(s), i);
    MultisetRemove(ProxyIds(s), i);
  }

  lemma HeldParts(s: State)
    ensures multiset(Held(s)) == multiset(CoordIds(s.coord)) + multiset(ProxyIds(s.proxies))
      + multiset(ControlIds(s.control))
  {
  }

  /** A state between two holders of room `id`. */
  ghost predicate InTransit(c: Config, s: State, id: RoomId) {
    && OwnReceivers(s)
    && ControlIds(s.control) == []
    && multiset(Held(s)) + multiset{id} == multiset(c.rooms)
  }

  lemma ParkHeld(s: State, id: RoomId, rx: Receiver, register: bool)
    requires ControlIds(s.control) == []
    ensures multiset(Held(Park(s, id, rx, register))) == multiset(Held(s)) + multiset{id}
  {
    var t := Park(s, id, rx, register);
    assert CoordIds(t.coord) == CoordIds(s.coord) + [id];
    HeldParts(s);
    HeldParts(t);
  }

  lemma ParkExclusive(c: Config, s: State, id: RoomId, register: bool)
    requires InTransit(c, s, id)
    ensures Exclusive(c, Park(s, id, Receiver(id), register))
  {
    ParkHeld(s, id, Receiver(id), register);
  }

  /** The receiver goes to a new proxy. */
  lemma HandToProxy(s: State, t: State, p: Proxy)
    requires t.coord == s.coord && t.proxies == s.proxies + [p]
    requires ControlIds(s.control) == [] && ControlIds(t.control) == []
    ensures multiset(Held(t)) == multiset(Held(s)) + multiset{p.id}
  {
    assert ProxyIds(t.proxies) == ProxyIds(s.proxies) + [p.id];
    HeldParts(s);
    HeldParts(t);
  }

  lemma LaunchExclusive(c: Config, s: State, id: RoomId, parties: Peerset, body: Bytes, n: nat, done: Option<nat>)
    requires InTransit(c, s.(control := Idle), id)
    ensures var t := Launch(c, s, id, Receiver(id), parties, body, n, done); t.control.Down? || Exclusive(c, t)
  {
    var t := Launch(c, s, id, Receiver(id), parties, body, n, done);
    if !t.control.Down? {
      HandToProxy(s.(control := Idle), t, Proxy(id, Receiver(id), s.next, parties));
    }
  }

  /** Taking the receiver out of the awaited arm. */
  lemma ControlInTransit(c: Config, s: State)
    requires Exclusive(c, s) && (s.control.Joining? || s.control.Proposing?)
    ensures InTransit(c, s.(control := Idle), s.control.id)
  {
    HeldParts(s);
    HeldParts(s.(control := Idle));
  }

  lemma RoomInTransit(c: Config, s: State, i: nat)
    requires Exclusive(c, s) && s.control.Idle? && i < |s.coord|
    ensures InTransit(c, s.(coord := Without(s.coord, i)), s.coord[i].id)
  {
    var t := s.(coord := Without(s.coord, i));
    CoordIdsWithout(s.coord, i);
    HeldParts(s);
    HeldParts(t);
    assert s.coord[i].id in multiset(CoordIds(s.coord)) by {
      assert CoordIds(s.coord)[i] == s.coord[i].id;
    }
    forall j | 0 <= j < |t.coord| ensures t.coord[j].rx == Receiver(t.coord[j].id) {
      assert t.coord[j] in s.coord;
    }
  }

  lemma ProxyInTransit(c: Config, s: State, x: nat)
    requires Exclusive(c, s) && s.control.Idle? && x < |s.proxies|
    ensures InTransit(c, s.(proxies := Without(s.proxies, x)), s.proxies[x].id)
  {
    var t := s.(proxies := Without(s.proxies, x));
    ProxyIdsWithout(s.proxies, x);
    HeldParts(s);
    HeldParts(t);
    assert s.proxies[x].id in multiset(ProxyIds(s.proxies)) by {
      assert ProxyIds(s.proxies)[x] == s.proxies[x].id;
    }
    forall j | 0 <= j < |t.proxies| ensures t.proxies[j].rx == Receiver(t.proxies[j].id) {
      assert t.proxies[j] in s.proxies;
    }
  }

  /** The awaited arm takes the receiver over. */
  lemma TakeOver(c: Config, s: State, k: Control)
    requires k.Joining? || k.Proposing?
    requires InTransit(c, s, k.id) && k.rx == Receiver(k.id)
    ensures Exclusive(c, s.(control := k))
  {
    HeldParts(s);
    HeldParts(s.(control := k));
  }

  /** Only the receivers' places matter. */
  lemma SameHolders(c: Config, s: State, t: State)
    requires Exclusive(c, s)
    requires CoordIds(t.coord) == CoordIds(s.coord) && t.proxies == s.proxies
      && ControlIds(t.control) == ControlIds(s.control)
    requires OwnReceivers(t)
    ensures Exclusive(c, t)
  {
  }

  lemma RoomExclusive(c: Config, s: State, i: nat, out: Phase1Msg, known: bool)
    requires Exclusive(c, s) && s.control.Idle? && i < |s.coord|
    ensures var t := AfterRoom(c, s, i, out, known); t.control.Down? || Exclusive(c, t)
  {
    var p := s.coord[i];
    RoomInTransit(c, s, i);
    match out {
      case FromRemote(_) =>
        var s1 := s.(coord := Without(s.coord, i), dropped := s.dropped + LetterDone(p));
        assert InTransit(c, s1, p.id);
        if known {
          TakeOver(c, s1, Joining(p.id, p.rx));
        } else {
          ParkExclusive(c, s1, p.id, true);
        }
      case FromLocal(rpc) =>
        TakeOver(c, s.(coord := Without(s.coord, i)), Proposing(p.id, p.rx, NewNegotiation(rpc, c.local)));
      case StillWaiting =>
      case Phase1Panic =>
    }
  }

  lemma JoinExclusive(c: Config, s: State, out: Phase2Msg)
    requires Exclusive(c, s) && s.control.Joining?
    ensures var t := AfterJoin(c, s, out); t.control.Down? || Exclusive(c, t)
  {
    var id := s.control.id;
    ControlInTransit(c, s);
    match out {
      case Started(parties, body) => LaunchExclusive(c, s, id, parties, body, |parties.peers|, None);
      case Aborted => ParkExclusive(c, s.(control := Idle), id, id in s.rpc);
      case StillJoining =>
      case Phase2Panic =>
    }
  }

  lemma NegotiationExclusive(c: Config, s: State, out: NegotiationMsg)
    requires Exclusive(c, s) && s.control.Proposing?
    ensures var t := AfterNegotiation(c, s, out); t.control.Down? || Exclusive(c, t)
  {
    var (id, rpc) := (s.control.id, s.control.g.rpc);
    ControlInTransit(c, s);
    match out {
      case Assembled(parties, _, _) => LaunchExclusive(c, s, id, parties, rpc.args, rpc.n, Some(rpc.done));
      case Pending(next, _) => SameHolders(c, s, s.(control := Proposing(id, s.control.rx, next)));
      case GaveUp =>
        var s1 := s.(control := Idle, dropped := s.dropped + [rpc.done]);
        assert InTransit(c, s1, id);
        ParkExclusive(c, s1, id, true);
    }
  }

  lemma RequestExclusive(c: Config, s: State, room: RoomId, known: bool, rpc: LocalRpc)
    requires Exclusive(c, s)
    ensures Exclusive(c, OnRequest(s, room, known, rpc))
  {
    var t := OnRequest(s, room, known, rpc);
    assert CoordIds(t.coord) == CoordIds(s.coord);
    SameHolders(c, s, t);
  }

  lemma ProxyExclusive(c: Config, s: State, x: nat, msg: Option<RoomMessage>)
    requires Exclusive(c, s) && s.control.Idle? && x < |s.proxies|
    ensures var t := OnProxy(s, x, msg); t.control.Down? || Exclusive(c, t)
  {
    ProxyInTransit(c, s, x);
    ParkExclusive(c, s.(proxies := Without(s.proxies, x)), s.proxies[x].id, true);
  }

  /** A step moves receivers around; short of a panic it neither makes nor loses one. */
  lemma StepExclusive(c: Config, s: State, a: Step)
    requires Exclusive(c, s) && Enabled(c, s, a)
    ensures Apply(c, s, a).control.Down? || Exclusive(c, Apply(c, s, a))
  {
    match a
    case Request(room, known, rpc) => RequestExclusive(c, s, room, known, rpc);
    case PollRoom(i, msg, known) =>
      RoomExclusive(c, s, i, RoomPoll(s, i, msg), known);
    case PollJoin(msg, timeout) => JoinExclusive(c, s, Phase2Poll(msg, timeout, c.local, c.valid));
    case PollNegotiation(response, timeout, order) =>
      NegotiationExclusive(c, s, NegotiationPoll(s.control.g, response, timeout, order, c.local));
    case EndExec(e, how) => SameHolders(c, s, OnEnd(s, e, how));
    case PollProxy(x, msg) => ProxyExclusive(c, s, x, msg);
  }

  lemma {:induction false} InitExclusive(c: Config, rooms: seq<RoomId>)
    requires c.rooms == rooms
    ensures Exclusive(c, Init(rooms)) && Init(rooms).control.Idle?
    decreases |rooms|
  {
    if rooms == [] {
    } else {
      var k := |rooms| - 1;
      var c1 := c.(rooms := rooms[..k]);
      InitExclusive(c1, rooms[..k]);
      assert rooms == rooms[..k] + [rooms[k]];
      assert InTransit(c, Init(rooms[..k]), rooms[k]);
      ParkExclusive(c, Init(rooms[..k]), rooms[k], true);
    }
  }
}
