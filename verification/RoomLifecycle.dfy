/** What every run of the daemon keeps: one holder per room, one computation per
    room, a reachable mailbox for every waiting room, and one fate per request. */
module RoomLifecycle {
  import opened Basics
  import opened Peersets
  import opened Coordination
  import opened Daemon

  lemma StepAt(c: Config, states: seq<State>, steps: seq<Step>, i: nat)
    requires Run(c, states, steps) && i < |steps|
    ensures Enabled(c, states[i], steps[i]) && states[i + 1] == Apply(c, states[i], steps[i])
    ensures !states[i].control.Down?
  {
    assert Leads(c, states[i], steps[i], states[i + 1]);
  }

  // ---------- one holder per room ----------

  /** Room exclusivity. In every state short of a panic each room's own receiver is
      held once, by a phase 1 channel, by phase 2, by a negotiation or by a proxy,
      and the rooms held are the rooms the daemon started with. */
  lemma {:induction false} RoomExclusivity(c: Config, states: seq<State>, steps: seq<Step>, i: nat)
    requires Run(c, states, steps) && i < |states|
    ensures states[i].control.Down?
         || (Exclusive(c, states[i]) && Distinct(Held(states[i])) && Elems(Held(states[i])) == Elems(c.rooms))
  {
    if i == 0 {
      InitExclusive(c, c.rooms);
    } else {
      RoomExclusivity(c, states, steps, i - 1);
      StepAt(c, states, steps, i - 1);
      StepExclusive(c, states[i - 1], steps[i - 1]);
    }
    if !states[i].control.Down? {
      HeldDistinct(c, states[i]);
    }
  }

  lemma HeldDistinct(c: Config, s: State)
    requires Distinct(c.rooms) && Exclusive(c, s)
    ensures Distinct(Held(s)) && Elems(Held(s)) == Elems(c.rooms)
  {
    DistinctMultiset(c.rooms);
    MultisetDistinct(Held(s));
    SameMultisetSameElements(Held(s), c.rooms);
  }

  // ---------- one computation per room ----------

  /** The proxy that feeds the computation, of its room and over its party list. */
  ghost predicate Feeds(p: Proxy, e: Exec) {
    p.fwd == e.fwd && p.id == e.id && p.parties == e.parties
  }

  ghost predicate HasProxy(s: State, e: Exec) {
    exists x :: 0 <= x < |s.proxies| && Feeds(s.proxies[x], e)
  }

  /** Whoever runs a computation listens to a proxy that holds the room. */
  ghost predicate Proxied(s: State) {
    && (forall e :: 0 <= e < |s.execs| ==> HasProxy(s, s.execs[e]) && s.execs[e].fwd < s.next)
    && (forall e, f :: 0 <= e < f < |s.execs| ==> s.execs[e].fwd != s.execs[f].fwd)
    && (forall x :: 0 <= x < |s.proxies| ==> s.proxies[x].fwd < s.next)
    && (forall x, y :: 0 <= x < y < |s.proxies| ==> s.proxies[x].fwd != s.proxies[y].fwd)
  }

  lemma StillProxied(s: State, t: State, e: Exec)
    requires HasProxy(s, e) && s.proxies <= t.proxies
    ensures HasProxy(t, e)
  {
    var x :| 0 <= x < |s.proxies| && Feeds(s.proxies[x], e);
    assert t.proxies[x] == s.proxies[x];
  }

  lemma LaunchProxied(c: Config, s: State, id: RoomId, rx: Receiver, parties: Peerset, body: Bytes, n: nat,
                      done: Option<nat>)
    requires Proxied(s)
    ensures Proxied(Launch(c, s, id, rx, parties, body, n, done))
  {
    var t := Launch(c, s, id, rx, parties, body, n, done);
    assert s.proxies <= t.proxies;
    forall e | 0 <= e < |t.execs| ensures HasProxy(t, t.execs[e]) && t.execs[e].fwd < t.next {
      if e < |s.execs| {
        assert HasProxy(s, s.execs[e]);
        StillProxied(s, t, s.execs[e]);
      } else {
        assert Feeds(t.proxies[|s.proxies|], t.execs[e]);
      }
    }
  }

  /** Steps that start nothing and let no proxy go. */
  lemma SameProxies(s: State, t: State)
    requires Proxied(s) && t.proxies == s.proxies && t.next >= s.next
    requires t.execs == s.execs || exists e :: 0 <= e < |s.execs| && t.execs == Without(s.execs, e)
    ensures Proxied(t)
  {
    forall f | 0 <= f < |t.execs| ensures HasProxy(t, t.execs[f]) && t.execs[f].fwd < t.next {
      assert t.execs[f] in s.execs;
      var e :| 0 <= e < |s.execs| && s.execs[e] == t.execs[f];
      assert HasProxy(s, s.execs[e]);
      var x :| 0 <= x < |s.proxies| && Feeds(s.proxies[x], s.execs[e]);
      assert Feeds(t.proxies[x], t.execs[f]);
    }
  }

  /** A proxy leaves only once nobody listens to it. */
  lemma ProxyLeaves(s: State, x: nat, t: State)
    requires Proxied(s) && x < |s.proxies| && !Listening(s, s.proxies[x].fwd)
    requires t.proxies == Without(s.proxies, x) && t.execs == s.execs && t.next >= s.next
    ensures Proxied(t)
  {
    forall e | 0 <= e < |t.execs| ensures HasProxy(t, t.execs[e]) {
      assert HasProxy(s, s.execs[e]);
      var y :| 0 <= y < |s.proxies| && Feeds(s.proxies[y], s.execs[e]);
      assert y != x;
      var z := if y < x then y else y - 1;
      assert t.proxies[z] == s.proxies[y];
    }
  }

  lemma StepProxied(c: Config, s: State, a: Step)
    requires Proxied(s) && Enabled(c, s, a)
    ensures Proxied(Apply(c, s, a))
  {
    var t := Apply(c, s, a);
    match a
    case Request(room, known, rpc) => SameProxies(s, t);
    case PollRoom(i, msg, known) => SameProxies(s, t);
    case PollJoin(msg, timeout) => JoinProxied(c, s, Phase2Poll(msg, timeout, c.local, c.valid));
    case PollNegotiation(response, timeout, order) =>
      NegotiationProxied(c, s, NegotiationPoll(s.control.g, response, timeout, order, c.local));
    case EndExec(e, how) =>
      assert t.execs == Without(s.execs, e);
      SameProxies(s, t);
    case PollProxy(x, msg) =>
      if Listening(s, s.proxies[x].fwd) {
        SameProxies(s, t);
      } else {
        ProxyLeaves(s, x, t);
      }
  }

  lemma JoinProxied(c: Config, s: State, out: Phase2Msg)
    requires Proxied(s) && s.control.Joining?
    ensures Proxied(AfterJoin(c, s, out))
  {
    match out {
      case Started(parties, body) =>
        LaunchProxied(c, s, s.control.id, s.control.rx, parties, body, |parties.peers|, None);
      case _ => SameProxies(s, AfterJoin(c, s, out));
    }
  }

  lemma NegotiationProxied(c: Config, s: State, out: NegotiationMsg)
    requires Proxied(s) && s.control.Proposing?
    ensures Proxied(AfterNegotiation(c, s, out))
  {
    match out {
      case Assembled(parties, _, _) =>
        var rpc := s.control.g.rpc;
        LaunchProxied(c, s, s.control.id, s.control.rx, parties, rpc.args, rpc.n, Some(rpc.done));
      case _ => SameProxies(s, AfterNegotiation(c, s, out));
    }
  }

  lemma {:induction false} InitProxied(rooms: seq<RoomId>)
    ensures Init(rooms).proxies == [] && Init(rooms).execs == []
    decreases |rooms|
  {
    if rooms == [] {
    } else {
      InitProxied(rooms[..|rooms| - 1]);
    }
  }

  lemma {:induction false} RunProxied(c: Config, states: seq<State>, steps: seq<Step>, i: nat)
    requires Run(c, states, steps) && i < |states|
    ensures Proxied(states[i])
  {
    if i == 0 {
      InitProxied(c.rooms);
    } else {
      RunProxied(c, states, steps, i - 1);
      StepAt(c, states, steps, i - 1);
      StepProxied(c, states[i - 1], steps[i - 1]);
    }
  }

  /** The computation's room sits with its proxy in the list of holders. */
  lemma ExecHolds(s: State, e: nat) returns (x: nat)
    requires Proxied(s) && e < |s.execs|
    ensures x < |s.proxies| && Feeds(s.proxies[x], s.execs[e])
    ensures |s.coord| + x < |Held(s)| && Held(s)[|s.coord| + x] == s.execs[e].id
  {
    assert HasProxy(s, s.execs[e]);
    x :| 0 <= x < |s.proxies| && Feeds(s.proxies[x], s.execs[e]);
  }

  lemma ComputationsApart(s: State, e: nat, f: nat)
    requires Proxied(s) && Distinct(Held(s)) && e < |s.execs| && f < |s.execs| && e != f
    ensures s.execs[e].id != s.execs[f].id
  {
    var x := ExecHolds(s, e);
    var y := ExecHolds(s, f);
    assert s.proxies[x].fwd != s.proxies[y].fwd;
  }

  /** One computation at a time per room: no two computations share a room, and a
      room with a computation is neither waiting, nor being joined or proposed; its
      messages go through a proxy that tags them by the computation's own list. */
  lemma OneComputationPerRoom(c: Config, states: seq<State>, steps: seq<Step>, i: nat, e: nat)
    requires Run(c, states, steps) && i < |states| && !states[i].control.Down? && e < |states[i].execs|
    ensures forall f :: 0 <= f < |states[i].execs| && f != e ==> states[i].execs[f].id != states[i].execs[e].id
    ensures forall j :: 0 <= j < |states[i].coord| ==> states[i].coord[j].id != states[i].execs[e].id
    ensures states[i].execs[e].id !in ControlIds(states[i].control)
    ensures HasProxy(states[i], states[i].execs[e])
  {
    var s := states[i];
    RoomExclusivity(c, states, steps, i);
    RunProxied(c, states, steps, i);
    forall f | 0 <= f < |s.execs| && f != e ensures s.execs[f].id != s.execs[e].id {
      ComputationsApart(s, e, f);
    }
    NotHeldElsewhere(s, e);
  }

  lemma NotHeldElsewhere(s: State, e: nat)
    requires Proxied(s) && Distinct(Held(s)) && e < |s.execs|
    ensures forall j :: 0 <= j < |s.coord| ==> s.coord[j].id != s.execs[e].id
    ensures s.execs[e].id !in ControlIds(s.control)
  {
    var x := ExecHolds(s, e);
    forall j | 0 <= j < |s.coord| ensures s.coord[j].id != s.execs[e].id {
      assert Held(s)[j] == s.coord[j].id;
    }
    if s.control.Joining? || s.control.Proposing? {
      assert Held(s)[|s.coord| + |s.proxies|] == s.control.id;
    }
  }

  // ---------- mailboxes ----------

  /** Waiting rooms have mailboxes of their own. */
  ghost predicate Mailboxes(s: State) {
    && (forall j :: 0 <= j < |s.coord| ==> s.coord[j].mailbox < s.next)
    && (forall j, k :: 0 <= j < k < |s.coord| ==> s.coord[j].mailbox != s.coord[k].mailbox)
  }

  /** The table points into the right rooms, and a room whose request has been put
      in its mailbox is no longer in the table. */
  ghost predicate Pointers(s: State) {
    && (forall id :: id in s.rpc ==> s.rpc[id] < s.next)
    && (forall j, id :: 0 <= j < |s.coord| && id in s.rpc && s.rpc[id] == s.coord[j].mailbox ==> s.coord[j].id == id)
    && (forall j :: 0 <= j < |s.coord| && s.coord[j].letter.Some? ==> s.coord[j].id !in s.rpc)
  }

  ghost predicate Table(s: State) {
    Mailboxes(s) && Pointers(s)
  }

  /** A waiting room has its request, or can still be sent one. */
  predicate Reachable(s: State, p: Phase1) {
    p.letter.Some? || (p.id in s.rpc && s.rpc[p.id] == p.mailbox)
  }

  ghost predicate AllReachable(s: State) {
    forall j :: 0 <= j < |s.coord| ==> Reachable(s, s.coord[j])
  }

  /** Polling a quiet waiting room panics exactly when it has become unreachable. */
  lemma PanicExactlyWhenUnreachable(c: Config, s: State, i: nat, known: bool)
    requires Table(s) && i < |s.coord| && s.control.Idle?
    ensures OnRoom(c, s, i, None, known).control.Down? <==> !Reachable(s, s.coord[i])
  {
    var p := s.coord[i];
    if SenderAlive(s, p.mailbox) {
      var id :| id in s.rpc && s.rpc[id] == p.mailbox;
    }
    if p.letter.None? && Reachable(s, p) {
      assert s.rpc[p.id] in s.rpc.Values;
    }
  }

  lemma ParkReachable(s: State, id: RoomId, rx: Receiver, register: bool)
    requires AllReachable(s) && Table(s) && forall j :: 0 <= j < |s.coord| ==> s.coord[j].id != id
    ensures AllReachable(Park(s, id, rx, register)) <==> register
  {
    var t := Park(s, id, rx, register);
    var last := |s.coord|;
    assert t.coord[last] == Phase1(id, rx, s.next, None);
    if register {
      forall j | 0 <= j < |t.coord| ensures Reachable(t, t.coord[j]) {
        if j < last {
          assert Reachable(s, s.coord[j]);
        }
      }
    } else {
      assert !Reachable(t, t.coord[last]);
    }
  }

  lemma ParkMailboxes(s: State, id: RoomId, rx: Receiver, register: bool)
    requires Mailboxes(s)
    ensures Mailboxes(Park(s, id, rx, register))
  {
  }

  lemma ParkPointers(s: State, id: RoomId, rx: Receiver, register: bool)
    requires Mailboxes(s) && Pointers(s) && forall j :: 0 <= j < |s.coord| ==> s.coord[j].id != id
    ensures Pointers(Park(s, id, rx, register))
  {
  }

  lemma ParkTable(s: State, id: RoomId, rx: Receiver, register: bool)
    requires Table(s) && forall j :: 0 <= j < |s.coord| ==> s.coord[j].id != id
    ensures Table(Park(s, id, rx, register))
    ensures AllReachable(s) ==> (AllReachable(Park(s, id, rx, register)) <==> register)
  {
    ParkMailboxes(s, id, rx, register);
    ParkPointers(s, id, rx, register);
    if AllReachable(s) {
      ParkReachable(s, id, rx, register);
    }
  }

  lemma WithoutTable(s: State, i: nat)
    requires Table(s) && i < |s.coord|
    ensures Table(s.(coord := Without(s.coord, i)))
    ensures AllReachable(s) ==> AllReachable(s.(coord := Without(s.coord, i)))
  {
    var t := s.(coord := Without(s.coord, i));
    forall j | 0 <= j < |t.coord| ensures t.coord[j] == s.coord[if j < i then j else j + 1] {
    }
  }

  lemma RequestTable(s: State, room: RoomId, known: bool, rpc: LocalRpc)
    requires Table(s)
    ensures Table(OnRequest(s, room, known, rpc))
  {
    var t := OnRequest(s, room, known, rpc);
    forall j | 0 <= j < |t.coord| ensures t.coord[j].mailbox == s.coord[j].mailbox && t.coord[j].id == s.coord[j].id {
    }
  }

  lemma RequestReachable(s: State, room: RoomId, known: bool, rpc: LocalRpc)
    requires Table(s) && AllReachable(s)
    ensures AllReachable(OnRequest(s, room, known, rpc))
  {
    var t := OnRequest(s, room, known, rpc);
    forall j | 0 <= j < |t.coord| ensures Reachable(t, t.coord[j]) {
      assert Reachable(s, s.coord[j]);
    }
  }

  /** The step at which phase 2 gives the room back. */
  ghost predicate AbortsJoin(c: Config, s: State, a: Step) {
    a.PollJoin? && s.control.Joining? && Phase2Poll(a.jmsg, a.jtimeout, c.local, c.valid).Aborted?
  }

  /** The step at which a waiting room is created without a way to reach it: phase 2
      aborts while the table has no entry for the room. */
  ghost predicate LosesMailbox(c: Config, s: State, a: Step) {
    AbortsJoin(c, s, a) && s.control.id !in s.rpc
  }

  ghost predicate Waiting(s: State, id: RoomId) {
    exists j :: 0 <= j < |s.coord| && s.coord[j].id == id
  }

  lemma LaunchTable(c: Config, s: State, id: RoomId, rx: Receiver, parties: Peerset, body: Bytes, n: nat,
                    done: Option<nat>)
    requires Table(s)
    ensures var t := Launch(c, s, id, rx, parties, body, n, done);
      Table(t) && t.coord == s.coord && t.rpc == s.rpc
  {
  }

  lemma JoinTable(c: Config, s: State, out: Phase2Msg)
    requires Table(s) && s.control.Joining? && !Waiting(s, s.control.id)
    ensures Table(AfterJoin(c, s, out))
    ensures AllReachable(s) ==> (AllReachable(AfterJoin(c, s, out)) <==> !(out.Aborted? && s.control.id !in s.rpc))
  {
    match out {
      case Aborted => ParkTable(s, s.control.id, s.control.rx, s.control.id in s.rpc);
      case Started(parties, body) =>
        LaunchTable(c, s, s.control.id, s.control.rx, parties, body, |parties.peers|, None);
      case StillJoining =>
      case Phase2Panic =>
    }
  }

  lemma NegotiationTable(c: Config, s: State, out: NegotiationMsg)
    requires Table(s) && s.control.Proposing? && !Waiting(s, s.control.id)
    ensures Table(AfterNegotiation(c, s, out))
    ensures AllReachable(s) ==> AllReachable(AfterNegotiation(c, s, out))
  {
    var rpc := s.control.g.rpc;
    match out {
      case GaveUp => ParkTable(s.(dropped := s.dropped + [rpc.done]), s.control.id, s.control.rx, true);
      case Assembled(parties, _, _) =>
        LaunchTable(c, s, s.control.id, s.control.rx, parties, rpc.args, rpc.n, Some(rpc.done));
      case Pending(next, _) =>
    }
  }

  lemma RoomTable(c: Config, s: State, i: nat, out: Phase1Msg, known: bool)
    requires Table(s) && s.control.Idle? && i < |s.coord|
    requires forall j :: 0 <= j < |s.coord| && j != i ==> s.coord[j].id != s.coord[i].id
    ensures Table(AfterRoom(c, s, i, out, known))
    ensures AllReachable(s) ==> AllReachable(AfterRoom(c, s, i, out, known))
  {
    WithoutTable(s, i);
    if out.FromRemote? && !known {
      RefusedTable(s, i);
    }
  }

  /** Refusing a remote proposal puts the room back where it can be reached. */
  lemma RefusedTable(s: State, i: nat)
    requires Table(s) && i < |s.coord|
    requires forall j :: 0 <= j < |s.coord| && j != i ==> s.coord[j].id != s.coord[i].id
    ensures var t := Park(s.(coord := Without(s.coord, i), dropped := s.dropped + LetterDone(s.coord[i])),
                          s.coord[i].id, s.coord[i].rx, true);
      Table(t) && (AllReachable(s) ==> AllReachable(t))
  {
    var p := s.coord[i];
    var s0 := s.(coord := Without(s.coord, i));
    var s1 := s0.(dropped := s.dropped + LetterDone(p));
    WithoutTable(s, i);
    forall j | 0 <= j < |s1.coord| ensures s1.coord[j].id != p.id {
      assert s1.coord[j] == s.coord[if j < i then j else j + 1];
    }
    assert Table(s1) && (AllReachable(s0) ==> AllReachable(s1));
    ParkTable(s1, p.id, p.rx, true);
  }

  lemma ProxyTable(s: State, x: nat, msg: Option<RoomMessage>)
    requires Table(s) && x < |s.proxies| && !Waiting(s, s.proxies[x].id)
    ensures Table(OnProxy(s, x, msg)) && (AllReachable(s) ==> AllReachable(OnProxy(s, x, msg)))
  {
    var s1 := s.(proxies := Without(s.proxies, x));
    assert AllReachable(s) ==> AllReachable(s1);
    ParkTable(s1, s.proxies[x].id, s.proxies[x].rx, true);
  }

  lemma EndTable(s: State, e: nat, how: Ending)
    requires Table(s) && e < |s.execs|
    ensures Table(OnEnd(s, e, how)) && (AllReachable(s) ==> AllReachable(OnEnd(s, e, how)))
  {
    var t := OnEnd(s, e, how);
    assert t.coord == s.coord && t.rpc == s.rpc && t.next == s.next;
  }

  lemma ProxyNotWaiting(s: State, x: nat)
    requires Distinct(Held(s)) && x < |s.proxies|
    ensures !Waiting(s, s.proxies[x].id)
  {
    assert Held(s)[|s.coord| + x] == s.proxies[x].id;
    forall j | 0 <= j < |s.coord| ensures s.coord[j].id != s.proxies[x].id {
      assert Held(s)[j] == s.coord[j].id;
    }
  }

  lemma ControlNotWaiting(s: State)
    requires Distinct(Held(s)) && (s.control.Joining? || s.control.Proposing?)
    ensures !Waiting(s, s.control.id)
  {
    assert Held(s)[|s.coord| + |s.proxies|] == s.control.id;
    forall j | 0 <= j < |s.coord| ensures s.coord[j].id != s.control.id {
      assert Held(s)[j] == s.coord[j].id;
    }
  }

  lemma WaitingOnce(s: State, i: nat, j: nat)
    requires Distinct(Held(s)) && i < |s.coord| && j < |s.coord| && i != j
    ensures s.coord[i].id != s.coord[j].id
  {
    assert Held(s)[i] == s.coord[i].id && Held(s)[j] == s.coord[j].id;
  }

  /** A room held in one place is not waiting in another. */
  lemma HeldOnce(c: Config, s: State)
    requires Distinct(c.rooms) && Exclusive(c, s)
    ensures s.control.Joining? || s.control.Proposing? ==> !Waiting(s, s.control.id)
    ensures forall x :: 0 <= x < |s.proxies| ==> !Waiting(s, s.proxies[x].id)
    ensures forall i, j :: 0 <= i < |s.coord| && 0 <= j < |s.coord| && i != j ==> s.coord[i].id != s.coord[j].id
  {
    HeldDistinct(c, s);
    if s.control.Joining? || s.control.Proposing? {
      ControlNotWaiting(s);
    }
    forall x | 0 <= x < |s.proxies| ensures !Waiting(s, s.proxies[x].id) {
      ProxyNotWaiting(s, x);
    }
    forall i, j | 0 <= i < |s.coord| && 0 <= j < |s.coord| && i != j ensures s.coord[i].id != s.coord[j].id {
      WaitingOnce(s, i, j);
    }
  }

  lemma StepTable(c: Config, s: State, a: Step)
    requires Distinct(c.rooms) && Exclusive(c, s) && Table(s) && Enabled(c, s, a)
    ensures Table(Apply(c, s, a))
    ensures AllReachable(s) ==> (AllReachable(Apply(c, s, a)) <==> !LosesMailbox(c, s, a))
  {
    match a
    case Request(room, known, rpc) =>
      RequestTable(s, room, known, rpc);
      if AllReachable(s) {
        RequestReachable(s, room, known, rpc);
      }
    case PollRoom(i, msg, known) =>
      HeldOnce(c, s);
      RoomTable(c, s, i, RoomPoll(s, i, msg), known);
    case PollJoin(msg, timeout) =>
      HeldOnce(c, s);
      JoinTable(c, s, Phase2Poll(msg, timeout, c.local, c.valid));
    case PollNegotiation(response, timeout, order) =>
      HeldOnce(c, s);
      NegotiationTable(c, s, NegotiationPoll(s.control.g, response, timeout, order, c.local));
    case EndExec(e, how) => EndTable(s, e, how);
    case PollProxy(x, msg) =>
      HeldOnce(c, s);
      ProxyTable(s, x, msg);
  }

  lemma {:induction false} InitTable(c: Config, rooms: seq<RoomId>)
    requires Distinct(rooms)
    ensures Table(Init(rooms)) && AllReachable(Init(rooms))
    ensures forall j :: 0 <= j < |Init(rooms).coord| ==> Init(rooms).coord[j].id in rooms
    decreases |rooms|
  {
    if rooms == [] {
    } else {
      var k := |rooms| - 1;
      InitTable(c, rooms[..k]);
      ParkTable(Init(rooms[..k]), rooms[k], Receiver(rooms[k]), true);
    }
  }

  lemma {:induction false} RunTable(c: Config, states: seq<State>, steps: seq<Step>, i: nat)
    requires Run(c, states, steps) && i < |states|
    ensures Table(states[i])
    ensures (forall j :: 0 <= j < i ==> !LosesMailbox(c, states[j], steps[j])) ==> AllReachable(states[i])
  {
    if i == 0 {
      InitTable(c, c.rooms);
    } else {
      RunTable(c, states, steps, i - 1);
      RoomExclusivity(c, states, steps, i - 1);
      StepAt(c, states, steps, i - 1);
      StepTable(c, states[i - 1], steps[i - 1]);
    }
  }

  /** The mailbox invariant, exactly: in a run every waiting room stays reachable if
      and only if phase 2 never aborts with the room's entry gone from the table. */
  lemma MailboxInvariant(c: Config, states: seq<State>, steps: seq<Step>)
    requires Run(c, states, steps)
    ensures (forall i :: 0 <= i < |states| ==> AllReachable(states[i]))
       <==> (forall i :: 0 <= i < |steps| ==> !LosesMailbox(c, states[i], steps[i]))
  {
    if forall i :: 0 <= i < |steps| ==> !LosesMailbox(c, states[i], steps[i]) {
      forall i | 0 <= i < |states| ensures AllReachable(states[i]) {
        RunTable(c, states, steps, i);
      }
    } else {
      var i :| 0 <= i < |steps| && LosesMailbox(c, states[i], steps[i]);
      RunTable(c, states, steps, i);
      RoomExclusivity(c, states, steps, i);
      StepTable(c, states[i], steps[i]);
      if AllReachable(states[i]) {
        assert !AllReachable(states[i + 1]);
      }
    }
  }

  /** A remote proposal for a known protocol overtakes a local request already handed
      to the room. */
  ghost predicate Overtakes(s: State, a: Step) {
    && a.PollRoom? && a.i < |s.coord| && a.rknown
    && a.msg.Some? && a.msg.value.context.messageType.Coordination?
    && s.coord[a.i].letter.Some?
  }

  /** The joining in progress at i was begun by overtaking a local request. */
  ghost predicate Overtaken(states: seq<State>, steps: seq<Step>, i: nat)
    requires |states| == |steps| + 1 && i < |states|
    decreases i
  {
    && i > 0
    && if states[i - 1].control.Joining? then Overtaken(states, steps, i - 1)
      else Overtakes(states[i - 1], steps[i - 1])
  }

  /** The entry is gone exactly when the remote proposal overtook a local request
      already handed to the room, and it stays so while the node is joining. */
  lemma EntryGoneExactlyWhenOvertaken(c: Config, s: State, i: nat, msg: RoomMessage)
    requires Table(s) && AllReachable(s) && s.control.Idle? && i < |s.coord|
    requires msg.context.messageType.Coordination?
    ensures var t := OnRoom(c, s, i, Some(msg), true);
      && t.control == Joining(s.coord[i].id, s.coord[i].rx)
      && (t.control.id !in t.rpc <==> s.coord[i].letter.Some?)
      && forall out: Phase2Msg :: AfterJoin(c, t, out).control.Joining? ==> AfterJoin(c, t, out).rpc == t.rpc
  {
    assert Reachable(s, s.coord[i]);
  }

  lemma JoiningGoesOn(c: Config, s: State, out: Phase2Msg)
    requires s.control.Joining? && AfterJoin(c, s, out).control.Joining?
    ensures AfterJoin(c, s, out) == s
  {
  }

  lemma NegotiationNeverJoins(c: Config, s: State, out: NegotiationMsg)
    requires s.control.Proposing?
    ensures !AfterNegotiation(c, s, out).control.Joining?
  {
  }

  lemma RoomIntoJoining(c: Config, s: State, i: nat, msg: Option<RoomMessage>, known: bool)
    requires s.control.Idle? && i < |s.coord| && OnRoom(c, s, i, msg, known).control.Joining?
    ensures known && msg.Some? && msg.value.context.messageType.Coordination?
  {
  }

  /** A step into a joining comes from a joining that goes on or a proposal taken up. */
  lemma IntoJoining(c: Config, s: State, a: Step)
    requires Enabled(c, s, a) && Apply(c, s, a).control.Joining?
    ensures s.control.Joining? ==> Apply(c, s, a) == s
    ensures !s.control.Joining? ==>
      && a.PollRoom? && a.rknown && a.msg.Some? && a.msg.value.context.messageType.Coordination?
      && s.control.Idle? && a.i < |s.coord|
  {
    match a
    case PollJoin(msg, timeout) => JoiningGoesOn(c, s, Phase2Poll(msg, timeout, c.local, c.valid));
    case PollRoom(i, msg, known) => RoomIntoJoining(c, s, i, msg, known);
    case PollNegotiation(response, timeout, order) =>
      NegotiationNeverJoins(c, s, NegotiationPoll(s.control.g, response, timeout, order, c.local));
    case Request(_, _, _) => assert false;
    case EndExec(_, _) => assert false;
    case PollProxy(_, _) => assert false;
  }

  /** While nothing has been lost, a joining room lacks its entry exactly when its
      joining was begun by overtaking. */
  lemma {:induction false} EntryGone(c: Config, states: seq<State>, steps: seq<Step>, i: nat)
    requires Run(c, states, steps) && i < |states| && states[i].control.Joining?
    requires forall j :: 0 <= j < i ==> !LosesMailbox(c, states[j], steps[j])
    ensures states[i].control.id !in states[i].rpc <==> Overtaken(states, steps, i)
  {
    if i == 0 {
      InitExclusive(c, c.rooms);
      assert false;
    } else {
      var (s, a) := (states[i - 1], steps[i - 1]);
      IntoJoining(c, s, a);
      if s.control.Joining? {
        EntryGone(c, states, steps, i - 1);
      } else {
        RunTable(c, states, steps, i - 1);
        EntryGoneExactlyWhenOvertaken(c, s, a.i, a.msg.value);
      }
    }
  }

  /** The mailbox invariant, by what happens to requests: in a run every waiting room
      stays reachable if and only if no joining begun by overtaking a local request
      is ever aborted. */
  lemma MailboxLostOnlyByOvertaking(c: Config, states: seq<State>, steps: seq<Step>)
    requires Run(c, states, steps)
    ensures (forall i :: 0 <= i < |states| ==> AllReachable(states[i]))
       <==> (forall i :: 0 <= i < |steps| ==> !(AbortsJoin(c, states[i], steps[i]) && Overtaken(states, steps, i)))
  {
    MailboxInvariant(c, states, steps);
    if forall i :: 0 <= i < |steps| ==> !LosesMailbox(c, states[i], steps[i]) {
      forall i | 0 <= i < |steps| && AbortsJoin(c, states[i], steps[i]) ensures !Overtaken(states, steps, i) {
        EntryGone(c, states, steps, i);
      }
    } else {
      var k :| 0 <= k < |steps| && LosesMailbox(c, states[k], steps[k]);
      var i := FirstLoss(c, states, steps, k);
      EntryGone(c, states, steps, i);
    }
  }

  lemma {:induction false} FirstLoss(c: Config, states: seq<State>, steps: seq<Step>, k: nat) returns (i: nat)
    requires |states| == |steps| + 1 && k < |steps| && LosesMailbox(c, states[k], steps[k])
    ensures i < |steps| && LosesMailbox(c, states[i], steps[i])
    ensures forall j :: 0 <= j < i ==> !LosesMailbox(c, states[j], steps[j])
  {
    i := k;
    if j :| 0 <= j < k && LosesMailbox(c, states[j], steps[j]) {
      i := FirstLoss(c, states, steps, j);
    }
  }

  /** When no remote proposal overtakes a local request handed over before it, every
      waiting room is reachable in every state, and polling a quiet one never panics. */
  lemma NoOvertakingNoPanic(c: Config, states: seq<State>, steps: seq<Step>, i: nat)
    requires Run(c, states, steps) && i < |states|
    requires forall j :: 0 <= j < |steps| ==> !Overtakes(states[j], steps[j])
    ensures AllReachable(states[i])
    ensures states[i].control.Idle? ==>
      forall j, known :: 0 <= j < |states[i].coord| ==> !OnRoom(c, states[i], j, None, known).control.Down?
  {
    forall j | 0 <= j < |steps| ensures !Overtaken(states, steps, j) {
      NeverOvertaken(states, steps, j);
    }
    MailboxLostOnlyByOvertaking(c, states, steps);
    RunTable(c, states, steps, i);
    if states[i].control.Idle? {
      forall j, known | 0 <= j < |states[i].coord| ensures !OnRoom(c, states[i], j, None, known).control.Down? {
        PanicExactlyWhenUnreachable(c, states[i], j, known);
      }
    }
  }

  lemma {:induction false} NeverOvertaken(states: seq<State>, steps: seq<Step>, i: nat)
    requires |states| == |steps| + 1 && i < |states|
    requires forall j :: 0 <= j < |steps| ==> !Overtakes(states[j], steps[j])
    ensures !Overtaken(states, steps, i)
  {
    if i == 0 {
    } else {
      NeverOvertaken(states, steps, i - 1);
    }
  }

  lemma Extend(c: Config, states: seq<State>, steps: seq<Step>, a: Step)
    returns (states': seq<State>, steps': seq<Step>)
    requires Run(c, states, steps) && Enabled(c, states[|steps|], a)
    ensures Run(c, states', steps') && |steps'| == |steps| + 1
    ensures states'[|steps'|] == Apply(c, states[|steps|], a)
  {
    states', steps' := states + [Apply(c, states[|steps|], a)], steps + [a];
    forall i | 0 <= i < |steps'| ensures Leads(c, states'[i], steps'[i], states'[i + 1]) {
      if i < |steps| {
        assert Leads(c, states[i], steps[i], states[i + 1]);
      }
    }
  }

  lemma HandOver(c: Config, room: RoomId, rpc: LocalRpc) returns (states: seq<State>, steps: seq<Step>)
    requires c.rooms == [room]
    ensures Run(c, states, steps)
    ensures states[|steps|]
      == State(map[], [Phase1(room, Receiver(room), 0, Some(rpc))], [], [], Idle, [], [], [rpc.done], 1)
  {
    states, steps := [Init(c.rooms)], [];
    assert c.rooms[..0] == [];
    assert Init(c.rooms) == Park(Init([]), room, Receiver(room), true);
    assert states[0] == State(map[room := 0], [Phase1(room, Receiver(room), 0, None)], [], [], Idle, [], [], [], 1);
    assert states[0].coord[0].mailbox == 0 && HasMailbox(states[0].coord, 0);
    states, steps := Extend(c, states, steps, Request(room, true, rpc));
    assert map[room := 0] - {room} == map[];
    assert Deliver([Phase1(room, Receiver(room), 0, None)], 0, rpc) == [Phase1(room, Receiver(room), 0, Some(rpc))];
  }

  lemma Overtake(c: Config, room: RoomId, rpc: LocalRpc, proposal: RoomMessage, states: seq<State>, steps: seq<Step>)
    returns (states': seq<State>, steps': seq<Step>)
    requires c.rooms == [room] && Run(c, states, steps) && proposal.context.messageType.Coordination?
    requires states[|steps|]
      == State(map[], [Phase1(room, Receiver(room), 0, Some(rpc))], [], [], Idle, [], [], [rpc.done], 1)
    ensures Run(c, states', steps')
    ensures states'[|steps'|] == State(map[], [], [], [], Joining(room, Receiver(room)), [], [rpc.done], [rpc.done], 1)
  {
    states', steps' := Extend(c, states, steps, PollRoom(0, Some(proposal), true));
  }

  /** The gap is real: a local request is handed over, a remote proposal overtakes
      it, the proposer goes silent, and the room's next poll is a panic. */
  lemma OvertakenRunPanics(c: Config, room: RoomId, rpc: LocalRpc, proposal: RoomMessage)
    returns (states: seq<State>, steps: seq<Step>)
    requires c.rooms == [room] && proposal.context.messageType.Coordination?
    ensures Run(c, states, steps)
    ensures states[|steps|].control.Down?
  {
    states, steps := HandOver(c, room, rpc);
    states, steps := Overtake(c, room, rpc, proposal, states, steps);
    states, steps := Extend(c, states, steps, PollJoin(None, true));
    assert states[|steps|]
      == State(map[], [Phase1(room, Receiver(room), 1, None)], [], [], Idle, [], [rpc.done], [rpc.done], 2);
    states, steps := Extend(c, states, steps, PollRoom(0, None, true));
  }

  // ---------- completion handles ----------

  /** All that f finds in the elements of s. */
  function Bag<T>(s: seq<T>, f: T -> multiset<nat>): multiset<nat> {
    if s == [] then multiset{} else Bag(s[..|s| - 1], f) + f(s[|s| - 1])
  }

  function LetterOf(p: Phase1): multiset<nat> {
    if p.letter.Some? then multiset{p.letter.value.done} else multiset{}
  }

  function ExecOf(e: Exec): multiset<nat> {
    if e.done.Some? then multiset{e.done.value} else multiset{}
  }

  function AnswerOf(a: Answer): multiset<nat> {
    multiset{a.done}
  }

  function ControlOf(k: Control): multiset<nat> {
    if k.Proposing? then multiset{k.g.rpc.done} else multiset{}
  }

  /** Every place a completion handle can be in: a mailbox, a negotiation, an
      execution, answered, dropped. */
  function Places(s: State): multiset<nat> {
    Bag(s.coord, LetterOf) + ControlOf(s.control) + Bag(s.execs, ExecOf) + Bag(s.answers, AnswerOf)
      + multiset(s.dropped)
  }

  ghost predicate Accounted(s: State) {
    Distinct(s.accepted) && Places(s) == multiset(s.accepted)
  }

  lemma BagAppend<T>(s: seq<T>, x: T, f: T -> multiset<nat>)
    ensures Bag(s + [x], f) == Bag(s, f) + f(x)
  {
    assert (s + [x])[..|s|] == s;
  }

  lemma WithoutInFront<T>(s: seq<T>, i: nat)
    requires i < |s| - 1
    ensures Without(s, i) == Without(s[..|s| - 1], i) + [s[|s| - 1]]
  {
  }

  lemma {:induction false} BagWithout<T>(s: seq<T>, i: nat, f: T -> multiset<nat>)
    requires i < |s|
    ensures Bag(s, f) == Bag(Without(s, i), f) + f(s[i])
  {
    var k := |s| - 1;
    if i < k {
      BagWithout(s[..k], i, f);
      WithoutInFront(s, i);
      BagAppend(Without(s[..k], i), s[k], f);
    } else {
      assert Without(s, i) == s[..k];
    }
  }

  /** A new phase 1 channel holds no request. */
  lemma ParkPlaces(s: State, id: RoomId, rx: Receiver, register: bool)
    requires ControlOf(s.control) == multiset{}
    ensures Places(Park(s, id, rx, register)) == Places(s)
  {
    BagAppend(s.coord, Phase1(id, rx, s.next, None), LetterOf);
  }

  lemma DeliverPlaces(coord: seq<Phase1>, j: nat, rpc: LocalRpc)
    requires j < |coord| && coord[j].letter.None?
    requires forall k, l :: 0 <= k < l < |coord| ==> coord[k].mailbox != coord[l].mailbox
    ensures Bag(Deliver(coord, coord[j].mailbox, rpc), LetterOf) == Bag(coord, LetterOf) + multiset{rpc.done}
  {
    var after := Deliver(coord, coord[j].mailbox, rpc);
    assert Without(after, j) == Without(coord, j);
    BagWithout(coord, j, LetterOf);
    BagWithout(after, j, LetterOf);
  }

  lemma AcceptOne(s: State, done: nat)
    requires Distinct(s.accepted) && done !in s.accepted
    ensures Distinct(s.accepted + [done])
  {
  }

  /** The places change only by what a part of them takes in. */
  lemma OneMore(a: multiset<nat>, b: multiset<nat>, c: multiset<nat>, d: multiset<nat>, e: multiset<nat>,
                x: multiset<nat>)
    ensures (a + x) + b + c + d + e == (a + b + c + d + e) + x
    ensures a + (b + x) + c + d + e == (a + b + c + d + e) + x
    ensures a + b + (c + x) + d + e == (a + b + c + d + e) + x
    ensures a + b + c + (d + x) + e == (a + b + c + d + e) + x
    ensures a + b + c + d + (e + x) == (a + b + c + d + e) + x
  {
  }

  lemma RequestAccounted(s: State, room: RoomId, known: bool, rpc: LocalRpc)
    requires Accounted(s) && Table(s) && rpc.done !in s.accepted
    ensures Accounted(OnRequest(s, room, known, rpc))
  {
    AcceptOne(s, rpc.done);
    OneMore(Bag(s.coord, LetterOf), ControlOf(s.control), Bag(s.execs, ExecOf), Bag(s.answers, AnswerOf),
            multiset(s.dropped), multiset{rpc.done});
    if room in s.rpc && known && HasMailbox(s.coord, s.rpc[room]) {
      var j :| 0 <= j < |s.coord| && s.coord[j].mailbox == s.rpc[room];
      DeliverPlaces(s.coord, j, rpc);
    } else {
      BagAppend(s.answers, Answer(rpc.done, false), AnswerOf);
    }
  }

  lemma RoomAccounted(c: Config, s: State, i: nat, out: Phase1Msg, known: bool)
    requires Accounted(s) && s.control.Idle? && i < |s.coord|
    requires out.FromLocal? ==> s.coord[i].letter == Some(out.rpc)
    ensures Accounted(AfterRoom(c, s, i, out, known))
  {
    match out {
      case FromRemote(_) => RemoteAccounted(s, i);
      case FromLocal(rpc) => LocalAccounted(s, i, NewNegotiation(rpc, c.local));
      case StillWaiting =>
      case Phase1Panic =>
    }
  }

  /** A request overtaken by a remote proposal is dropped. */
  lemma RemoteAccounted(s: State, i: nat)
    requires Accounted(s) && s.control.Idle? && i < |s.coord|
    ensures var (p, t) := (s.coord[i], s.(coord := Without(s.coord, i), dropped := s.dropped + LetterDone(s.coord[i])));
      Accounted(t.(control := Joining(p.id, p.rx))) && Accounted(Park(t, p.id, p.rx, true))
  {
    var (p, t) := (s.coord[i], s.(coord := Without(s.coord, i), dropped := s.dropped + LetterDone(s.coord[i])));
    OvertakeAccounted(s, i);
    ParkPlaces(t, p.id, p.rx, true);
    assert Places(t.(control := Joining(p.id, p.rx))) == Places(t);
  }

  /** The request goes from its mailbox to the negotiation. */
  lemma LocalAccounted(s: State, i: nat, g: Negotiation)
    requires Accounted(s) && s.control.Idle? && i < |s.coord| && s.coord[i].letter == Some(g.rpc)
    ensures Accounted(s.(coord := Without(s.coord, i), control := Proposing(s.coord[i].id, s.coord[i].rx, g)))
  {
    BagWithout(s.coord, i, LetterOf);
    OneMore(Bag(Without(s.coord, i), LetterOf), multiset{}, Bag(s.execs, ExecOf), Bag(s.answers, AnswerOf),
            multiset(s.dropped), LetterOf(s.coord[i]));
    assert multiset{} + LetterOf(s.coord[i]) == multiset{g.rpc.done};
  }

  lemma OvertakeAccounted(s: State, i: nat)
    requires i < |s.coord|
    ensures Places(s.(coord := Without(s.coord, i), dropped := s.dropped + LetterDone(s.coord[i]))) == Places(s)
  {
    BagWithout(s.coord, i, LetterOf);
    assert multiset(LetterDone(s.coord[i])) == LetterOf(s.coord[i]);
  }

  lemma ProxyAccounted(s: State, x: nat, msg: Option<RoomMessage>)
    requires Accounted(s) && s.control.Idle? && x < |s.proxies|
    ensures var t := OnProxy(s, x, msg); t.control.Down? || Accounted(t)
  {
    var s1 := s.(proxies := Without(s.proxies, x));
    assert Places(s1) == Places(s);
    ParkPlaces(s1, s.proxies[x].id, s.proxies[x].rx, true);
  }

  /** The handle goes from the negotiation to the computation. */
  lemma LaunchPlaces(s: State, t: State, x: Exec)
    requires t.coord == s.coord && t.answers == s.answers && t.dropped == s.dropped
    requires t.execs == s.execs + [x] && t.control.Idle? && ExecOf(x) == ControlOf(s.control)
    ensures Places(t) == Places(s)
  {
    BagAppend(s.execs, x, ExecOf);
    OneMore(Bag(s.coord, LetterOf), multiset{}, Bag(s.execs, ExecOf), Bag(s.answers, AnswerOf), multiset(s.dropped),
            ExecOf(x));
    assert multiset{} + ExecOf(x) == ControlOf(s.control);
  }

  lemma LaunchAccounted(c: Config, s: State, id: RoomId, rx: Receiver, parties: Peerset, body: Bytes, n: nat,
                        done: Option<nat>)
    requires Accounted(s) && ControlOf(s.control) == if done.Some? then multiset{done.value} else multiset{}
    ensures var t := Launch(c, s, id, rx, parties, body, n, done); t.control.Down? || Accounted(t)
  {
    var t := Launch(c, s, id, rx, parties, body, n, done);
    if !t.control.Down? {
      LaunchPlaces(s, t, Exec(id, s.next, done, parties, body, n));
    }
  }

  lemma JoinAccounted(c: Config, s: State, out: Phase2Msg)
    requires Accounted(s) && s.control.Joining?
    ensures var t := AfterJoin(c, s, out); t.control.Down? || Accounted(t)
  {
    match out {
      case Started(parties, body) =>
        LaunchAccounted(c, s, s.control.id, s.control.rx, parties, body, |parties.peers|, None);
      case Aborted => ParkPlaces(s, s.control.id, s.control.rx, s.control.id in s.rpc);
      case StillJoining =>
      case Phase2Panic =>
    }
  }

  lemma NegotiationAccounted(c: Config, s: State, out: NegotiationMsg)
    requires Accounted(s) && s.control.Proposing?
    requires out.Pending? ==> out.next.rpc == s.control.g.rpc
    ensures var t := AfterNegotiation(c, s, out); t.control.Down? || Accounted(t)
  {
    var (id, rx, rpc) := (s.control.id, s.control.rx, s.control.g.rpc);
    match out {
      case Assembled(parties, _, _) => LaunchAccounted(c, s, id, rx, parties, rpc.args, rpc.n, Some(rpc.done));
      case GaveUp =>
        var s1 := s.(control := Idle, dropped := s.dropped + [rpc.done]);
        assert Places(s1) == Places(s);
        ParkPlaces(s1, id, rx, true);
        assert Park(s.(dropped := s.dropped + [rpc.done]), id, rx, true) == Park(s1, id, rx, true);
      case Pending(next, _) =>
    }
  }

  lemma EndAccounted(s: State, e: nat, how: Ending)
    requires Accounted(s) && e < |s.execs|
    ensures Accounted(OnEnd(s, e, how))
  {
    var x := ExecOf(s.execs[e]);
    BagWithout(s.execs, e, ExecOf);
    OneMore(Bag(s.coord, LetterOf), ControlOf(s.control), Bag(Without(s.execs, e), ExecOf), Bag(s.answers, AnswerOf),
            multiset(s.dropped), x);
    if s.execs[e].done.Some? {
      if how.AgentDone? {
        BagAppend(s.answers, Answer(s.execs[e].done.value, how.ok), AnswerOf);
      } else {
        assert multiset(s.dropped + [s.execs[e].done.value]) == multiset(s.dropped) + x;
      }
    }
  }

  lemma StepAccounted(c: Config, s: State, a: Step)
    requires Accounted(s) && Table(s) && Enabled(c, s, a)
    ensures var t := Apply(c, s, a); t.control.Down? || Accounted(t)
  {
    match a
    case Request(room, known, rpc) => RequestAccounted(s, room, known, rpc);
    case PollRoom(i, msg, known) =>
      RoomAccounted(c, s, i, RoomPoll(s, i, msg), known);
    case PollJoin(msg, timeout) => JoinAccounted(c, s, Phase2Poll(msg, timeout, c.local, c.valid));
    case PollNegotiation(response, timeout, order) =>
      NegotiationAccounted(c, s, NegotiationPoll(s.control.g, response, timeout, order, c.local));
    case EndExec(e, how) => EndAccounted(s, e, how);
    case PollProxy(x, msg) => ProxyAccounted(s, x, msg);
  }

  lemma {:induction false} InitAccounted(rooms: seq<RoomId>)
    ensures Places(Init(rooms)) == multiset{} && Init(rooms).accepted == [] && Init(rooms).control.Idle?
    decreases |rooms|
  {
    if rooms == [] {
    } else {
      var k := |rooms| - 1;
      InitAccounted(rooms[..k]);
      ParkPlaces(Init(rooms[..k]), rooms[k], Receiver(rooms[k]), true);
    }
  }

  lemma StartAccounted(c: Config)
    ensures Accounted(Init(c.rooms))
  {
    InitAccounted(c.rooms);
  }

  lemma NextAccounted(c: Config, states: seq<State>, steps: seq<Step>, i: nat)
    requires Run(c, states, steps) && i < |steps| && (states[i].control.Down? || Accounted(states[i]))
    ensures states[i + 1].control.Down? || Accounted(states[i + 1])
  {
    RunTable(c, states, steps, i);
    StepAt(c, states, steps, i);
    StepAccounted(c, states[i], steps[i]);
  }

  lemma RunAccounted(c: Config, states: seq<State>, steps: seq<Step>, i: nat)
    requires Run(c, states, steps) && i < |states|
    ensures states[i].control.Down? || Accounted(states[i])
  {
    var holds := (j: nat) => j < |states| ==> states[j].control.Down? || Accounted(states[j]);
    StartAccounted(c);
    forall j: nat | j < |steps| && holds(j) ensures holds(j + 1) {
      NextAccounted(c, states, steps, j);
    }
    Upwards(|steps|, holds, i);
  }

  /** Completion conservation. In every state short of a panic each handle accepted
      so far is in exactly one place, no other handle is anywhere, and none has
      been answered twice. */
  lemma CompletionConservation(c: Config, states: seq<State>, steps: seq<Step>, i: nat)
    requires Run(c, states, steps) && i < |states| && !states[i].control.Down?
    ensures forall d :: Places(states[i])[d] == if d in states[i].accepted then 1 else 0
    ensures forall d :: Bag(states[i].answers, AnswerOf)[d] <= 1
  {
    RunAccounted(c, states, steps, i);
    DistinctMultiset(states[i].accepted);
    forall d ensures Bag(states[i].answers, AnswerOf)[d] <= 1 {
      assert Places(states[i])[d] <= 1;
    }
  }
}
