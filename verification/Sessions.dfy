/** One room, many nodes, one proposer: how a session comes to be, over any
    interleaving of proposals, responses, start messages, timeouts and stray
    broadcasts of earlier computations. */
module Sessions {
  import opened Basics
  import opened PeerOrder
  import opened Peersets
  import opened Messages
  import opened StartMessages
  import opened Coordination
  import BufIo
  import Daemon
  import Varint

  /** A session a node has begun; `origin` is the attempt whose start message began it. */
  datatype Session = Session(origin: Option<nat>, parties: Peerset, body: Bytes, echoSize: nat)

  datatype Node = Waiting | Joining | Running(session: Session) | Crashed

  /** One proposal, to the peers connected then. Once it has its party, `order` lists
      the peers as the hash set yielded them. */
  datatype Attempt = Attempt(rpc: LocalRpc, targets: set<PeerId>, started: bool, order: seq<PeerId>)

  datatype Origin = OfProposal(a: nat) | OfStart(sa: nat) | OfOther

  datatype Packet = Packet(to: PeerId, payload: Bytes, origin: Origin)

  /** `nego`: the proposer's current attempt; `consents`: nodes that answered an attempt's proposal. */
  datatype State = State(nodes: map<PeerId, Node>, nego: Option<(nat, Negotiation)>, attempts: seq<Attempt>,
                         flight: set<Packet>, consents: set<(PeerId, nat)>)

  datatype Config = Config(proposer: PeerId, ids: set<PeerId>, valid: PeerId -> bool)

  datatype Step =
    | Propose(rpc: LocalRpc, targets: set<PeerId>)
    | Consent(q: PeerId, timeout: bool, order: seq<PeerId>)
    | GiveUp
    | Receive(packet: Packet, known: bool)
    | JoinTimeout(j: PeerId)
    | End(e: PeerId)
    | Stray(to: PeerId, payload: Bytes)

  ghost predicate GoodConfig(c: Config) {
    c.proposer in c.ids && forall x :: x in c.ids ==> |x| == ID && c.valid(x)
  }

  function Init(c: Config): State {
    State(map x | x in c.ids :: Waiting, None, [], {}, {})
  }

  /** The start message of an attempt that found its party. */
  function StartOf(c: Config, a: Attempt): StartMsg {
    StartMsg(New(a.order, c.proposer), a.rpc.args)
  }

  function Coord(payload: Bytes): RoomMessage {
    RoomMessage([], 0, payload, true, MessageContext(Coordination, 0, 0), 0)
  }

  ghost predicate Enabled(c: Config, s: State, a: Step) {
    match a
    case Propose(_, targets) =>
      c.proposer in s.nodes && s.nodes[c.proposer].Waiting? && s.nego.None? && targets <= c.ids - {c.proposer}
    case Consent(q, _, order) =>
      && s.nego.Some? && (q, s.nego.value.0) in s.consents
      && Lists(s.nego.value.1, Some(Result.Ok((q, []))), order)
    case GiveUp => s.nego.Some?
    case Receive(packet, _) => packet in s.flight && packet.to in s.nodes && (packet.to == c.proposer ==> s.nego.None?)
    case JoinTimeout(q) => q in s.nodes && s.nodes[q].Joining?
    case End(q) => q in s.nodes && s.nodes[q].Running?
    case Stray(to, _) => to in c.ids
  }

  /** A node sets up its execution, or panics trying. */
  function Begin(q: PeerId, session: Session): Node {
    if CanStart(q, session.parties) then Running(session) else Crashed
  }

  /** The proposer has polled its negotiation. */
  function AfterPoll(c: Config, s: State, out: NegotiationMsg, order: seq<PeerId>): State
    requires s.nego.Some? && s.nego.value.0 < |s.attempts|
  {
    var (a, g) := s.nego.value;
    match out
    case Pending(next, proposed) =>
      s.(nego := Some((a, next)),
         flight := s.flight
           + if proposed then set q | q in s.attempts[a].targets :: Packet(q, [], OfProposal(a)) else {})
    case GaveUp => s.(nego := None)
    case Assembled(parties, bytes, targets) =>
      s.(nego := None,
         attempts := s.attempts[a := s.attempts[a].(started := true, order := order)],
         nodes := s.nodes[c.proposer := Begin(c.proposer, Session(Some(a), parties, g.rpc.args, g.rpc.n))],
         flight := s.flight + set q | q in targets :: Packet(q, bytes, OfStart(a)))
  }

  function Begun(origin: Origin): Option<nat> {
    if origin.OfStart? then Some(origin.sa) else None
  }

  /** What a joining node does with a message. */
  function AfterJoining(q: PeerId, out: Phase2Msg, origin: Origin): Node {
    match out
    case Started(parties, body) => Begin(q, Session(Begun(origin), parties, body, |parties.peers|))
    case Aborted => Waiting
    case StillJoining => Joining
    case Phase2Panic => Crashed
  }

  /** The joining node a message is for, once it has read it. */
  function AfterReading(c: Config, packet: Packet): Node {
    AfterJoining(packet.to, Phase2Poll(Some(Coord(packet.payload)), false, packet.to, c.valid), packet.origin)
  }

  ghost function Apply(c: Config, s: State, a: Step): State
    requires Enabled(c, s, a)
    requires s.nego.Some? ==> s.nego.value.0 < |s.attempts|
  {
    match a
    case Propose(rpc, targets) =>
      var g := NewNegotiation(rpc, c.proposer);
      var s1 := s.(nego := Some((|s.attempts|, g)), attempts := s.attempts + [Attempt(rpc, targets, false, [])]);
      AfterPoll(c, s1, NegotiationPoll(g, None, false, [], c.proposer), [])
    case Consent(q, timeout, order) =>
      var s1 := s.(consents := s.consents - {(q, s.nego.value.0)});
      AfterPoll(c, s1, NegotiationPoll(s.nego.value.1, Some(Result.Ok((q, []))), timeout, order, c.proposer), order)
    case GiveUp => s.(nego := None)
    case Receive(packet, known) =>
      var q := packet.to;
      var s1 := s.(flight := s.flight - {packet});
      (match s.nodes[q]
       case Waiting =>
         if !known then s1
         else s1.(nodes := s.nodes[q := Joining],
                  consents := if packet.origin.OfProposal? then s.consents + {(q, packet.origin.a)} else s.consents)
       case Joining => s1.(nodes := s.nodes[q := AfterReading(c, packet)])
       case Running(_) => s1
       case Crashed => s1)
    case JoinTimeout(q) => s.(nodes := s.nodes[q := Waiting])
    case End(q) => s.(nodes := s.nodes[q := Waiting])
    case Stray(to, payload) => s.(flight := s.flight + {Packet(to, payload, OfOther)})
  }

  // ---------- invariant ----------

  /** The start message fits the writer's buffer. */
  predicate Fits(c: Config, a: Attempt) {
    |Wire(StartOf(c, a))| <= BufIo.CAPACITY
  }

  ghost predicate AttemptSound(c: Config, a: Attempt) {
    && a.targets <= c.ids - {c.proposer}
    && (a.started ==>
      && Distinct(a.order) && Elems(a.order) <= c.ids && c.proposer in a.order
      && |a.order| == a.rpc.n && a.rpc.n >= 2)
  }

  ghost predicate PacketSound(c: Config, s: State, p: Packet) {
    match p.origin
    case OfProposal(a) => a < |s.attempts| && p.payload == [] && p.to in s.attempts[a].targets && p.to != c.proposer
    case OfStart(a) =>
      && a < |s.attempts| && s.attempts[a].started && p.to in s.attempts[a].order
      && p.payload == Written(StartOf(c, s.attempts[a]))
    case OfOther => true
  }

  /** The session every party to an attempt should be in. */
  function Intended(c: Config, s: State, a: nat, q: PeerId): Session
    requires a < |s.attempts|
  {
    Session(Some(a), New(s.attempts[a].order, q), s.attempts[a].rpc.args, s.attempts[a].rpc.n)
  }

  ghost predicate NodeSound(c: Config, s: State, q: PeerId)
    requires q in s.nodes
  {
    s.nodes[q].Running? && s.nodes[q].session.origin.Some? ==>
      var a := s.nodes[q].session.origin.value;
      && a < |s.attempts| && s.attempts[a].started && q in s.attempts[a].order
      && (Fits(c, s.attempts[a]) ==> s.nodes[q].session == Intended(c, s, a, q))
  }

  ghost predicate NegoSound(c: Config, s: State) {
    s.nego.Some? ==>
      var (a, g) := s.nego.value;
      && a < |s.attempts| && g.rpc == s.attempts[a].rpc && !s.attempts[a].started
      && g.asked && c.proposer in g.peers && g.peers <= c.ids
  }

  ghost predicate Sound(c: Config, s: State) {
    && s.nodes.Keys == c.ids
    && NegoSound(c, s)
    && (forall a :: 0 <= a < |s.attempts| ==> AttemptSound(c, s.attempts[a]))
    && (forall p :: p in s.flight ==> PacketSound(c, s, p))
    && (forall q :: q in s.nodes ==> NodeSound(c, s, q))
    && (forall q, a :: (q, a) in s.consents ==> q in c.ids && q != c.proposer)
  }

  lemma StartWellFormed(c: Config, a: Attempt, q: PeerId)
    requires GoodConfig(c) && AttemptSound(c, a) && a.started && Fits(c, a)
    ensures WellFormed(New(a.order, q), c.valid)
    ensures Distinct(New(a.order, q).peers) && Elems(New(a.order, q).peers) == Elems(a.order)
  {
    var p := New(a.order, q);
    SortKeepsDistinct(a.order);
    forall x | x in p.peers ensures |x| == ID && c.valid(x) {
      assert x in Elems(p.peers);
    }
    forall i | 0 <= i < |p.peers| ensures |p.peers[i]| == ID {
      assert p.peers[i] in p.peers;
    }
    FlatAt(p.peers, p.indexes, 0);
    assert PeersetBytes(StartOf(c, a)) == Flat(p.peers, p.indexes);
  }

  lemma SortedIds(c: Config, a: Attempt)
    requires GoodConfig(c) && AttemptSound(c, a) && a.started
    ensures Ids(Sort(a.order))
  {
    SortKeepsDistinct(a.order);
    forall i | 0 <= i < |Sort(a.order)| ensures |Sort(a.order)[i]| == ID {
      assert Sort(a.order)[i] in Elems(Sort(a.order));
    }
  }

  lemma FittingBegins(c: Config, a: Attempt, q: PeerId)
    requires GoodConfig(c) && AttemptSound(c, a) && a.started && Fits(c, a)
    requires |PeersetBytes(StartOf(c, a))| < Varint.U64 && |a.rpc.args| < Varint.U64
    ensures Phase2Poll(Some(Coord(Written(StartOf(c, a)))), false, q, c.valid) == Started(New(a.order, q), a.rpc.args)
  {
    SortedIds(c, a);
    StartWellFormed(c, a, c.proposer);
    FittingReturns(StartOf(c, a), q, c.valid);
  }

  /** Starting means that the payload parsed. */
  lemma StartedParsed(c: Config, q: PeerId, payload: Bytes)
    ensures var out := Phase2Poll(Some(Coord(payload)), false, q, c.valid);
      out.Started? ==> Parsed(payload, q, c.valid) == Done(Some(StartMsg(out.parties, out.body)))
  {
  }

  lemma OverlongNeverBegins(c: Config, a: Attempt, q: PeerId)
    requires GoodConfig(c) && AttemptSound(c, a) && a.started && !Fits(c, a)
    requires |PeersetBytes(StartOf(c, a))| < Varint.U64 && |a.rpc.args| < Varint.U64
    ensures Phase2Poll(Some(Coord(Written(StartOf(c, a)))), false, q, c.valid) != Started(New(a.order, q), a.rpc.args)
  {
    OverlongNeverParses(c, a, q);
    StartedParsed(c, q, Written(StartOf(c, a)));
  }

  lemma OverlongNeverParses(c: Config, a: Attempt, q: PeerId)
    requires GoodConfig(c) && AttemptSound(c, a) && a.started && !Fits(c, a)
    requires |PeersetBytes(StartOf(c, a))| < Varint.U64 && |a.rpc.args| < Varint.U64
    ensures Parsed(Written(StartOf(c, a)), q, c.valid) != Done(Some(StartMsg(New(a.order, q), a.rpc.args)))
  {
    var m := StartOf(c, a);
    var m' := m.(parties := New(a.order, q));
    assert Written(m') == Written(m) && Wire(m') == Wire(m) && PeersetBytes(m') == PeersetBytes(m);
    SortedIds(c, a);
    OverlongNeverReturns(m', q, c.valid);
  }

  /** A joining node that receives an attempt's start message begins the proposer's
      session exactly when that message fits the writer's buffer. */
  lemma JoinerBeginsIntended(c: Config, a: Attempt, q: PeerId)
    requires GoodConfig(c) && AttemptSound(c, a) && a.started
    requires |PeersetBytes(StartOf(c, a))| < Varint.U64 && |a.rpc.args| < Varint.U64
    ensures Phase2Poll(Some(Coord(Written(StartOf(c, a)))), false, q, c.valid) == Started(New(a.order, q), a.rpc.args)
       <==> Fits(c, a)
  {
    if Fits(c, a) {
      FittingBegins(c, a, q);
    } else {
      OverlongNeverBegins(c, a, q);
    }
  }

  lemma FittingSizes(c: Config, a: Attempt)
    requires Fits(c, a)
    ensures |PeersetBytes(StartOf(c, a))| < Varint.U64 && |a.rpc.args| < Varint.U64
  {
  }

  // ---------- preservation ----------

  /** A started attempt never changes. */
  ghost predicate AttemptsGrow(s: State, t: State) {
    && |s.attempts| <= |t.attempts|
    && (forall a :: 0 <= a < |s.attempts| ==> t.attempts[a].targets == s.attempts[a].targets)
    && forall a :: 0 <= a < |s.attempts| && s.attempts[a].started ==> t.attempts[a] == s.attempts[a]
  }

  lemma PacketsGrow(c: Config, s: State, t: State)
    requires AttemptsGrow(s, t)
    requires forall p :: p in s.flight ==> PacketSound(c, s, p)
    ensures forall p :: p in s.flight ==> PacketSound(c, t, p)
  {
  }

  lemma NodeGrows(c: Config, s: State, t: State, q: PeerId)
    requires AttemptsGrow(s, t) && q in s.nodes && q in t.nodes && t.nodes[q] == s.nodes[q]
    requires NodeSound(c, s, q)
    ensures NodeSound(c, t, q)
  {
  }

  lemma ProposeSound(c: Config, s: State, rpc: LocalRpc, targets: set<PeerId>)
    requires GoodConfig(c) && Sound(c, s) && Enabled(c, s, Propose(rpc, targets))
    ensures Sound(c, Apply(c, s, Propose(rpc, targets)))
  {
    var t := Apply(c, s, Propose(rpc, targets));
    PacketsGrow(c, s, t);
    forall q | q in t.nodes ensures NodeSound(c, t, q) {
      NodeGrows(c, s, t, q);
    }
  }

  /** Every member of a started attempt can set up its session. */
  lemma MembersCanStart(c: Config, a: Attempt, q: PeerId)
    requires AttemptSound(c, a) && a.started && q in a.order
    ensures CanStart(q, New(a.order, q))
  {
    SortKeepsDistinct(a.order);
    assert q in Elems(Sort(a.order));
  }

  /** The proposer's own session, and the start messages for everybody else. */
  lemma AssembleSound(c: Config, s: State, q: PeerId, order: seq<PeerId>)
    requires GoodConfig(c) && Sound(c, s) && s.nego.Some? && q in c.ids && q != c.proposer
    requires var (g, r) := (s.nego.value.1, Some(Result.Ok((q, []))));
      Complete(g, r) && Distinct(order) && Elems(order) == Joined(g, r)
    ensures var (g, r) := (s.nego.value.1, Some(Result.Ok((q, []))));
      && AfterPoll(c, s, NegotiationPoll(g, r, false, order, c.proposer), order).nodes[c.proposer].Running?
      && Sound(c, AfterPoll(c, s, NegotiationPoll(g, r, false, order, c.proposer), order))
  {
    var (a, g) := s.nego.value;
    var r := Some(Result.Ok((q, [])));
    var t := AfterPoll(c, s, NegotiationPoll(g, r, false, order, c.proposer), order);
    DistinctCount(order);
    assert c.proposer in Joined(g, r) && q in Joined(g, r);
    assert c.proposer in Elems(order);
    SubsetCount({c.proposer, q}, Elems(order));
    assert AttemptSound(c, t.attempts[a]);
    MembersCanStart(c, t.attempts[a], c.proposer);
    PacketsGrow(c, s, t);
    forall p | p in t.flight ensures PacketSound(c, t, p) {
      if p !in s.flight {
        assert p.to in Elems(order);
      }
    }
    forall x | x in t.nodes ensures NodeSound(c, t, x) {
      if x != c.proposer {
        NodeGrows(c, s, t, x);
      }
    }
  }

  lemma ConsentSound(c: Config, s: State, q: PeerId, timeout: bool, order: seq<PeerId>)
    requires GoodConfig(c) && Sound(c, s) && Enabled(c, s, Consent(q, timeout, order))
    ensures Sound(c, Apply(c, s, Consent(q, timeout, order)))
  {
    var (a, g) := s.nego.value;
    var r := Some(Result.Ok((q, [])));
    var s1 := s.(consents := s.consents - {(q, a)});
    assert q in c.ids && q != c.proposer;
    NodesGrow(c, s, s1);
    if Complete(g, r) {
      AssembleSound(c, s1, q, order);
    } else {
      NodesGrow(c, s, Apply(c, s, Consent(q, timeout, order)));
    }
  }

  /** Steps that touch neither nodes nor attempts nor packets. */
  lemma NodesGrow(c: Config, s: State, t: State)
    requires Sound(c, s) && t.nodes == s.nodes && t.attempts == s.attempts && t.flight == s.flight
    requires NegoSound(c, t) && t.consents <= s.consents
    ensures Sound(c, t)
  {
    PacketsGrow(c, s, t);
    forall q | q in t.nodes ensures NodeSound(c, t, q) {
      NodeGrows(c, s, t, q);
    }
  }

  /** One node changes and at most one packet leaves or a stray one arrives. */
  lemma OneNode(c: Config, s: State, t: State, q: PeerId)
    requires Sound(c, s) && t.attempts == s.attempts && t.nego == s.nego
    requires q in s.nodes && q in t.nodes && t.nodes == s.nodes[q := t.nodes[q]]
    requires NodeSound(c, t, q)
    requires forall p :: p in t.flight ==> p in s.flight || p.origin.OfOther?
    requires forall x, a :: (x, a) in t.consents ==> x in c.ids && x != c.proposer
    ensures Sound(c, t)
  {
    PacketsGrow(c, s, t);
    forall x | x in t.nodes ensures NodeSound(c, t, x) {
      if x != q {
        NodeGrows(c, s, t, x);
      }
    }
  }

  /** A proposal begins nothing. */
  lemma ProposalsBeginNothing(c: Config, s: State, packet: Packet)
    requires PacketSound(c, s, packet) && packet.origin.OfProposal?
    ensures !AfterReading(c, packet).Running?
  {
    EmptyNeverParses(packet.to, c.valid);
  }

  /** A joining node addressed by a start message that fits runs the proposer's session. */
  lemma FittingStartRuns(c: Config, s: State, packet: Packet)
    requires GoodConfig(c) && Sound(c, s) && packet in s.flight && packet.origin.OfStart?
    requires Fits(c, s.attempts[packet.origin.sa])
    ensures AfterReading(c, packet) == Running(Intended(c, s, packet.origin.sa, packet.to))
  {
    var at := s.attempts[packet.origin.sa];
    assert PacketSound(c, s, packet) && AttemptSound(c, at);
    FittingSizes(c, at);
    JoinerBeginsIntended(c, at, packet.to);
    MembersCanStart(c, at, packet.to);
  }

  /** A node that has read a message is in the intended session, if in one of a start message. */
  lemma HavingReadSound(c: Config, t: State, packet: Packet, x: Node)
    requires PacketSound(c, t, packet) && packet.to in t.nodes && t.nodes[packet.to] == x
    requires x.Running? ==> x.session.origin == Begun(packet.origin)
    requires packet.origin.OfStart? && Fits(c, t.attempts[packet.origin.sa]) && x.Running? ==>
      x.session == Intended(c, t, packet.origin.sa, packet.to)
    ensures NodeSound(c, t, packet.to)
  {
  }

  lemma SamePackets(c: Config, s: State, t: State, packet: Packet)
    requires PacketSound(c, s, packet) && t.attempts == s.attempts
    ensures PacketSound(c, t, packet)
  {
  }

  /** A joining node ends up in the intended session, if it ends up in one of a start message. */
  lemma JoiningSound(c: Config, s: State, t: State, packet: Packet)
    requires GoodConfig(c) && Sound(c, s) && packet in s.flight && packet.to in s.nodes && t.attempts == s.attempts
    requires packet.to in t.nodes
    requires t.nodes[packet.to] == AfterReading(c, packet)
    ensures NodeSound(c, t, packet.to)
  {
    SamePackets(c, s, t, packet);
    OriginOfReading(c, packet);
    if packet.origin.OfStart? && Fits(c, s.attempts[packet.origin.sa]) {
      FittingStartRuns(c, s, packet);
    }
    HavingReadSound(c, t, packet, t.nodes[packet.to]);
  }

  lemma OriginOfReading(c: Config, packet: Packet)
    ensures var x := AfterReading(c, packet); x.Running? ==> x.session.origin == Begun(packet.origin)
  {
  }

  lemma ReceiveSound(c: Config, s: State, packet: Packet, known: bool)
    requires GoodConfig(c) && Sound(c, s) && Enabled(c, s, Receive(packet, known))
    ensures Sound(c, Apply(c, s, Receive(packet, known)))
  {
    var t := Apply(c, s, Receive(packet, known));
    var q := packet.to;
    assert PacketSound(c, s, packet) && NodeSound(c, s, q);
    match s.nodes[q] {
      case Joining => JoiningSound(c, s, t, packet);
      case Waiting =>
      case Running(_) => NodeGrows(c, s, t, q);
      case Crashed =>
    }
    OneNode(c, s, t, q);
  }

  lemma StepSound(c: Config, s: State, a: Step)
    requires GoodConfig(c) && Sound(c, s) && Enabled(c, s, a)
    ensures Sound(c, Apply(c, s, a))
  {
    match a
    case Propose(rpc, targets) => ProposeSound(c, s, rpc, targets);
    case Consent(q, timeout, order) => ConsentSound(c, s, q, timeout, order);
    case GiveUp => NodesGrow(c, s, s.(nego := None));
    case Receive(packet, known) => ReceiveSound(c, s, packet, known);
    case JoinTimeout(q) => OneNode(c, s, Apply(c, s, a), q);
    case End(q) => OneNode(c, s, Apply(c, s, a), q);
    case Stray(to, payload) => OneNode(c, s, Apply(c, s, a), c.proposer);
  }

  ghost predicate Leads(c: Config, s: State, a: Step, t: State) {
    && (s.nego.Some? ==> s.nego.value.0 < |s.attempts|)
    && Enabled(c, s, a) && t == Apply(c, s, a)
  }

  ghost predicate Run(c: Config, states: seq<State>, steps: seq<Step>) {
    && GoodConfig(c)
    && |states| == |steps| + 1
    && states[0] == Init(c)
    && forall i :: 0 <= i < |steps| ==> Leads(c, states[i], steps[i], states[i + 1])
  }

  lemma StepAt(c: Config, states: seq<State>, steps: seq<Step>, i: nat)
    requires Run(c, states, steps) && i < |steps|
    ensures Leads(c, states[i], steps[i], states[i + 1])
  {
  }

  lemma {:induction false} RunSound(c: Config, states: seq<State>, steps: seq<Step>, i: nat)
    requires Run(c, states, steps) && i < |states|
    ensures Sound(c, states[i])
  {
    if i == 0 {
    } else {
      RunSound(c, states, steps, i - 1);
      StepAt(c, states, steps, i - 1);
      StepSound(c, states[i - 1], steps[i - 1]);
    }
  }

  /** Node q runs the session begun by attempt a. */
  ghost predicate RunsAttempt(s: State, q: PeerId, a: nat) {
    q in s.nodes && s.nodes[q].Running? && s.nodes[q].session.origin == Some(a)
  }

  /** Session agreement. In every run, all nodes running an attempt whose start
      message fits have the same ordered list of distinct peers, exactly as many as
      were asked for and at least two, the same body and the same echo size; each
      is in the list itself, so looking up its own number cannot fail. */
  lemma SessionAgreement(c: Config, states: seq<State>, steps: seq<Step>, i: nat, p: PeerId, q: PeerId, a: nat)
    requires Run(c, states, steps) && i < |states|
    requires RunsAttempt(states[i], p, a) && RunsAttempt(states[i], q, a)
    requires a < |states[i].attempts| && Fits(c, states[i].attempts[a])
    ensures var (x, y, n) := (states[i].nodes[p].session, states[i].nodes[q].session, states[i].attempts[a].rpc.n);
      && x.parties.peers == y.parties.peers && x.parties.indexes == y.parties.indexes
      && x.body == y.body == states[i].attempts[a].rpc.args
      && x.echoSize == y.echoSize == n == |x.parties.peers| && n >= 2
      && Distinct(x.parties.peers)
      && p in x.parties.peers && q in x.parties.peers
      && x.parties.local == p && y.parties.local == q
  {
    RunSound(c, states, steps, i);
    var s := states[i];
    assert NodeSound(c, s, p) && NodeSound(c, s, q) && AttemptSound(c, s.attempts[a]);
    SortKeepsDistinct(s.attempts[a].order);
    assert p in Elems(Sort(s.attempts[a].order)) && q in Elems(Sort(s.attempts[a].order));
  }

  /** The list does not depend on how any hash set was iterated. */
  lemma PartyListIsCanonical(order: seq<PeerId>, other: seq<PeerId>, p: PeerId, q: PeerId)
    requires Distinct(order) && Distinct(other) && Elems(order) == Elems(other)
    ensures New(order, p).peers == New(other, q).peers && New(order, p).indexes == New(other, q).indexes
  {
    SortCanonical(order, other, Elems(order));
    DistinctCount(order);
    DistinctCount(other);
  }

  // ---------- who is asked, and who is told ----------

  ghost predicate Read(a: Step, p: Packet) {
    a.Receive? && a.packet == p
  }

  /** The proposals on their way: those that were and were not read, and at the
      beginning of an attempt one for each peer it is meant for. */
  lemma ProposalsOnTheirWay(c: Config, s: State, a: Step, p: Packet)
    requires NegoSound(c, s) && Enabled(c, s, a) && p.origin.OfProposal?
    ensures p in Apply(c, s, a).flight <==>
      || (p in s.flight && !Read(a, p))
      || (a.Propose? && p.to in a.targets && p == Packet(p.to, [], OfProposal(|s.attempts|)))
  {
  }

  /** The attempt that finds its party with this step. */
  ghost predicate Starts(s: State, t: State, a: nat) {
    a < |s.attempts| && a < |t.attempts| && !s.attempts[a].started && t.attempts[a].started
  }

  /** The start message of attempt a, for q. */
  function StartFor(c: Config, s: State, a: nat, q: PeerId): Packet
    requires a < |s.attempts|
  {
    Packet(q, Written(StartOf(c, s.attempts[a])), OfStart(a))
  }

  lemma AssemblingTellsAll(c: Config, s: State, out: NegotiationMsg, order: seq<PeerId>, p: Packet)
    requires s.nego.Some? && s.nego.value.0 < |s.attempts| && out.Assembled? && p.origin.OfStart?
    requires out.start == Written(StartMsg(New(order, c.proposer), s.attempts[s.nego.value.0].rpc.args))
    requires out.targets == Elems(order)
    ensures var (t, a) := (AfterPoll(c, s, out, order), s.nego.value.0);
      p in t.flight <==> p in s.flight || (p.to in order && p == StartFor(c, t, a, p.to))
  {
    assert forall x :: x in out.targets <==> x in order;
  }

  lemma ConsentTells(c: Config, s: State, q: PeerId, timeout: bool, order: seq<PeerId>, p: Packet)
    requires GoodConfig(c) && Sound(c, s) && Enabled(c, s, Consent(q, timeout, order)) && p.origin.OfStart?
    ensures var (t, a) := (Apply(c, s, Consent(q, timeout, order)), s.nego.value.0);
      && (forall b :: Starts(s, t, b) ==> b == a)
      && (p in t.flight <==>
            p in s.flight || (Starts(s, t, a) && p.to in t.attempts[a].order && p == StartFor(c, t, a, p.to)))
  {
    var (a, g) := s.nego.value;
    var response := Some(Result.Ok((q, [])));
    if Complete(g, response) {
      var s1 := s.(consents := s.consents - {(q, a)});
      AssemblingTellsAll(c, s1, NegotiationPoll(g, response, timeout, order, c.proposer), order, p);
    }
  }

  /** The start messages on their way: those that were and were not read, and at the
      step that starts an attempt one for each peer of its party. */
  lemma StartsOnTheirWay(c: Config, s: State, a: Step, p: Packet)
    requires GoodConfig(c) && Sound(c, s) && Enabled(c, s, a) && p.origin.OfStart?
    ensures var (t, b) := (Apply(c, s, a), p.origin.sa);
      p in t.flight <==>
        || (p in s.flight && !Read(a, p))
        || (Starts(s, t, b) && p.to in t.attempts[b].order && p == StartFor(c, t, b, p.to))
  {
    match a
    case Consent(q, timeout, order) => ConsentTells(c, s, q, timeout, order, p);
    case Propose(_, _) => OthersTellNobody(c, s, a, p);
    case GiveUp => OthersTellNobody(c, s, a, p);
    case Receive(_, _) => OthersTellNobody(c, s, a, p);
    case JoinTimeout(_) => OthersTellNobody(c, s, a, p);
    case End(_) => OthersTellNobody(c, s, a, p);
    case Stray(_, _) => OthersTellNobody(c, s, a, p);
  }

  lemma OthersTellNobody(c: Config, s: State, a: Step, p: Packet)
    requires NegoSound(c, s) && Enabled(c, s, a) && p.origin.OfStart? && !a.Consent?
    ensures p in Apply(c, s, a).flight <==> p in s.flight && !Read(a, p)
    ensures !Starts(s, Apply(c, s, a), p.origin.sa)
  {
  }

  ghost predicate ReadWithin(steps: seq<Step>, i: nat, p: Packet)
    requires i <= |steps|
  {
    exists j :: 0 <= j < i && Read(steps[j], p)
  }

  lemma AttemptsKept(c: Config, s: State, a: Step)
    requires NegoSound(c, s) && Enabled(c, s, a)
    ensures AttemptsGrow(s, Apply(c, s, a))
    ensures |Apply(c, s, a).attempts| > |s.attempts| ==>
      a.Propose? && Apply(c, s, a).attempts == s.attempts + [Attempt(a.rpc, a.targets, false, [])]
  {
  }

  /** On its way, or read. */
  ghost predicate Reaches(states: seq<State>, steps: seq<Step>, i: nat, p: Packet)
    requires i <= |steps| < |states|
  {
    p in states[i].flight || ReadWithin(steps, i, p)
  }

  lemma ReachesStill(states: seq<State>, steps: seq<Step>, i: nat, p: Packet)
    requires i < |steps| < |states| && Reaches(states, steps, i, p)
    requires p in states[i].flight && !Read(steps[i], p) ==> p in states[i + 1].flight
    ensures Reaches(states, steps, i + 1, p)
  {
    if ReadWithin(steps, i, p) {
      var j :| 0 <= j < i && Read(steps[j], p);
      assert Read(steps[j], p);
    }
  }

  /** The proposal of attempt a to q. */
  function ProposalFor(a: nat, q: PeerId): Packet {
    Packet(q, [], OfProposal(a))
  }

  /** In every run, whoever an attempt means to ask has its proposal on the way to it or
      has read it. */
  lemma ProposalReachesAll(c: Config, states: seq<State>, steps: seq<Step>, i: nat, a: nat, q: PeerId)
    requires Run(c, states, steps) && i < |states| && a < |states[i].attempts| && q in states[i].attempts[a].targets
    ensures Reaches(states, steps, i, ProposalFor(a, q))
  {
    var holds := (j: nat) => j < |states| ==> ProposalOut(states, steps, j, a, q);
    assert states[0] == Init(c);
    forall j: nat | j < |steps| && holds(j) ensures holds(j + 1) {
      ProposalNext(c, states, steps, j, a, q);
    }
    Upwards(|steps|, holds, i);
  }

  ghost predicate ProposalOut(states: seq<State>, steps: seq<Step>, i: nat, a: nat, q: PeerId)
    requires i <= |steps| < |states|
  {
    a < |states[i].attempts| && q in states[i].attempts[a].targets ==> Reaches(states, steps, i, ProposalFor(a, q))
  }

  lemma ProposalNext(c: Config, states: seq<State>, steps: seq<Step>, i: nat, a: nat, q: PeerId)
    requires Run(c, states, steps) && i < |steps| && ProposalOut(states, steps, i, a, q)
    ensures ProposalOut(states, steps, i + 1, a, q)
  {
    StepAt(c, states, steps, i);
    RunSound(c, states, steps, i);
    ProposalStep(c, states[i], steps[i], a, q);
    if a < |states[i].attempts| && q in states[i].attempts[a].targets {
      ReachesStill(states, steps, i, ProposalFor(a, q));
    }
  }

  lemma ProposalStep(c: Config, s: State, step: Step, a: nat, q: PeerId)
    requires NegoSound(c, s) && Enabled(c, s, step)
    ensures var (t, p) := (Apply(c, s, step), ProposalFor(a, q));
      && (p in s.flight && !Read(step, p) ==> p in t.flight)
      && (a < |s.attempts| ==> a < |t.attempts| && t.attempts[a].targets == s.attempts[a].targets)
      && (a >= |s.attempts| && a < |t.attempts| && q in t.attempts[a].targets ==> p in t.flight)
  {
    AttemptsKept(c, s, step);
    ProposalsOnTheirWay(c, s, step, ProposalFor(a, q));
  }

  /** In every run, each peer of a started attempt's party has the start message on the
      way to it or has read it. */
  lemma StartReachesAll(c: Config, states: seq<State>, steps: seq<Step>, i: nat, a: nat, q: PeerId)
    requires Run(c, states, steps) && i < |states| && a < |states[i].attempts|
    requires states[i].attempts[a].started && q in states[i].attempts[a].order
    ensures Reaches(states, steps, i, StartFor(c, states[i], a, q))
  {
    var (at, p) := (states[i].attempts[a], StartFor(c, states[i], a, q));
    AtFirst(c, states, steps);
    forall j: nat | j < |steps| && StartOut(states, steps, j, a, at, p)
      ensures StartOut(states, steps, j + 1, a, at, p)
    {
      StartNext(c, states, steps, j, a, at, p);
    }
    StartOutThroughout(states, steps, i, a, at, p);
  }

  ghost predicate StartOut(states: seq<State>, steps: seq<Step>, i: nat, a: nat, at: Attempt, p: Packet)
    requires i <= |steps| < |states|
  {
    a < |states[i].attempts| && states[i].attempts[a] == at ==> Reaches(states, steps, i, p)
  }

  lemma {:induction false} StartOutThroughout(states: seq<State>, steps: seq<Step>, i: nat, a: nat, at: Attempt,
                                              p: Packet)
    requires i <= |steps| < |states| && StartOut(states, steps, 0, a, at, p)
    requires forall j: nat :: j < |steps| && StartOut(states, steps, j, a, at, p) ==>
      StartOut(states, steps, j + 1, a, at, p)
    ensures StartOut(states, steps, i, a, at, p)
  {
    if i == 0 {
    } else {
      StartOutThroughout(states, steps, i - 1, a, at, p);
    }
  }

  lemma StartNext(c: Config, states: seq<State>, steps: seq<Step>, i: nat, a: nat, at: Attempt, p: Packet)
    requires Run(c, states, steps) && i < |steps| && StartOut(states, steps, i, a, at, p)
    requires at.started && p.to in at.order && p.payload == Written(StartOf(c, at)) && p.origin == OfStart(a)
    ensures StartOut(states, steps, i + 1, a, at, p)
  {
    if a < |states[i + 1].attempts| && states[i + 1].attempts[a] == at {
      StartStep(c, states, steps, i, a, at, p);
      if states[i].attempts[a].started {
        ReachesStill(states, steps, i, p);
      }
    }
  }

  lemma AtFirst(c: Config, states: seq<State>, steps: seq<Step>)
    requires Run(c, states, steps)
    ensures states[0].attempts == []
  {
  }

  lemma StartStep(c: Config, states: seq<State>, steps: seq<Step>, i: nat, a: nat, at: Attempt, p: Packet)
    requires Run(c, states, steps) && i < |steps| && a < |states[i + 1].attempts| && states[i + 1].attempts[a] == at
    requires at.started && p.to in at.order && p.payload == Written(StartOf(c, at)) && p.origin == OfStart(a)
    ensures a < |states[i].attempts|
    ensures p in states[i].flight && !Read(steps[i], p) ==> p in states[i + 1].flight
    ensures states[i].attempts[a].started ==> states[i].attempts[a] == at
    ensures !states[i].attempts[a].started ==> p in states[i + 1].flight
  {
    StepAt(c, states, steps, i);
    RunSound(c, states, steps, i);
    AttemptsKept(c, states[i], steps[i]);
    StartsOnTheirWay(c, states[i], steps[i], p);
  }

  /** The step at which waiting node q takes up the proposal of attempt a. */
  ghost predicate TakesUp(s: State, step: Step, q: PeerId, a: nat) {
    && step.Receive? && step.known && step.packet.to == q && step.packet.origin == OfProposal(a)
    && q in s.nodes && s.nodes[q].Waiting?
  }

  ghost predicate TookUp(states: seq<State>, steps: seq<Step>, i: nat, q: PeerId, a: nat) {
    exists j :: 0 <= j < i && j < |steps| && j < |states| && TakesUp(states[j], steps[j], q, a)
  }

  /** The step at which the proposer finds this consent. */
  ghost predicate Finds(s: State, step: Step, q: PeerId, a: nat) {
    step.Consent? && step.q == q && s.nego.Some? && s.nego.value.0 == a
  }

  /** The consents not yet found: those given by taking a proposal up, and no others. */
  lemma ConsentsExactly(c: Config, s: State, step: Step, q: PeerId, a: nat)
    requires NegoSound(c, s) && Enabled(c, s, step)
    ensures (q, a) in Apply(c, s, step).consents <==>
      TakesUp(s, step, q, a) || ((q, a) in s.consents && !Finds(s, step, q, a))
  {
  }

  /** Consents, the peers of a negotiation and those of a party all took the proposal up. */
  ghost predicate Willing(c: Config, s: State, took: (PeerId, nat) -> bool) {
    && (forall q, a :: (q, a) in s.consents ==> took(q, a))
    && (s.nego.Some? ==> forall q :: q in s.nego.value.1.peers && q != c.proposer ==> took(q, s.nego.value.0))
    && (forall a, q :: 0 <= a < |s.attempts| && s.attempts[a].started && q in s.attempts[a].order && q != c.proposer ==>
          took(q, a))
  }

  lemma ConsentWilling(c: Config, s: State, q: PeerId, timeout: bool, order: seq<PeerId>, took: (PeerId, nat) -> bool)
    requires GoodConfig(c) && Sound(c, s) && Enabled(c, s, Consent(q, timeout, order)) && Willing(c, s, took)
    ensures Willing(c, Apply(c, s, Consent(q, timeout, order)), took)
  {
    var (k, g) := s.nego.value;
    var out := NegotiationPoll(g, Some(Result.Ok((q, []))), timeout, order, c.proposer);
    var s1 := s.(consents := s.consents - {(q, k)});
    assert took(q, k);
    if out.Assembled? {
      forall x | x in order && x != c.proposer ensures took(x, k) {
        assert x in Elems(order);
      }
      AssembledWilling(c, s1, out, order, took);
    } else if out.Pending? {
      PendingWilling(c, s1, out, order, took);
    }
  }

  lemma AssembledWilling(c: Config, s: State, out: NegotiationMsg, order: seq<PeerId>, took: (PeerId, nat) -> bool)
    requires s.nego.Some? && s.nego.value.0 < |s.attempts| && out.Assembled? && Willing(c, s, took)
    requires forall x :: x in order && x != c.proposer ==> took(x, s.nego.value.0)
    ensures Willing(c, AfterPoll(c, s, out, order), took)
  {
  }

  lemma PendingWilling(c: Config, s: State, out: NegotiationMsg, order: seq<PeerId>, took: (PeerId, nat) -> bool)
    requires s.nego.Some? && s.nego.value.0 < |s.attempts| && out.Pending? && Willing(c, s, took)
    requires forall x :: x in out.next.peers && x != c.proposer ==> took(x, s.nego.value.0)
    ensures Willing(c, AfterPoll(c, s, out, order), took)
  {
  }

  lemma StepWilling(c: Config, s: State, a: Step, took: (PeerId, nat) -> bool)
    requires GoodConfig(c) && Sound(c, s) && Enabled(c, s, a) && Willing(c, s, took)
    requires forall q, k :: TakesUp(s, a, q, k) ==> took(q, k)
    ensures Willing(c, Apply(c, s, a), took)
  {
    match a
    case Consent(q, timeout, order) => ConsentWilling(c, s, q, timeout, order, took);
    case Receive(packet, _) =>
      if packet.origin.OfProposal? {
        assert TakesUp(s, a, packet.to, packet.origin.a) || Apply(c, s, a).consents == s.consents;
      }
    case Propose(_, _) =>
    case GiveUp =>
    case JoinTimeout(_) =>
    case End(_) =>
    case Stray(_, _) =>
  }

  lemma {:induction false} RunWilling(c: Config, states: seq<State>, steps: seq<Step>, i: nat,
                                      took: (PeerId, nat) -> bool)
    requires Run(c, states, steps) && i < |states|
    requires forall q, a :: TookUp(states, steps, i, q, a) ==> took(q, a)
    ensures Willing(c, states[i], took)
  {
    if i == 0 {
      assert states[0] == Init(c);
    } else {
      RunWilling(c, states, steps, i - 1, took);
      RunSound(c, states, steps, i - 1);
      StepAt(c, states, steps, i - 1);
      StepWilling(c, states[i - 1], steps[i - 1], took);
    }
  }

  /** Nobody is in a party unasked: in every run each peer of a started attempt, the
      proposer apart, took up that attempt's own proposal while it was waiting. */
  lemma MembersConsented(c: Config, states: seq<State>, steps: seq<Step>, i: nat, a: nat, q: PeerId)
    requires Run(c, states, steps) && i < |states| && a < |states[i].attempts|
    requires states[i].attempts[a].started && q in states[i].attempts[a].order && q != c.proposer
    ensures TookUp(states, steps, i, q, a)
  {
    RunWilling(c, states, steps, i, (x: PeerId, k: nat) => TookUp(states, steps, i, x, k));
  }

  // ---------- a session that comes about ----------

  lemma Extend(c: Config, states: seq<State>, steps: seq<Step>, a: Step)
    returns (states': seq<State>, steps': seq<Step>)
    requires Run(c, states, steps) && NegoSound(c, states[|steps|]) && Enabled(c, states[|steps|], a)
    ensures Run(c, states', steps') && |steps'| == |steps| + 1
    ensures states'[|steps'|] == Apply(c, states[|steps|], a)
  {
    states', steps' := states + [Apply(c, states[|steps|], a)], steps + [a];
    forall i | 0 <= i < |steps'| ensures Leads(c, states'[i], steps'[i], states'[i + 1]) {
      if i < |steps| {
        StepAt(c, states, steps, i);
      }
    }
  }

  /** The proposer has asked q, and q has agreed. */
  lemma AskedAndAgreed(c: Config, q: PeerId, rpc: LocalRpc) returns (states: seq<State>, steps: seq<Step>)
    requires GoodConfig(c) && q in c.ids && q != c.proposer
    ensures Run(c, states, steps) && |steps| == 2
    ensures states[2] == State(Init(c).nodes[q := Joining], Some((0, Negotiation(rpc, {c.proposer}, true))),
                               [Attempt(rpc, {q}, false, [])], {}, {(q, 0)})
  {
    states, steps := [Init(c)], [];
    states, steps := Extend(c, states, steps, Propose(rpc, {q}));
    var p := ProposalFor(0, q);
    assert states[1].flight == {p};
    assert states[1] == State(Init(c).nodes, Some((0, Negotiation(rpc, {c.proposer}, true))),
                              [Attempt(rpc, {q}, false, [])], {p}, {});
    states, steps := Extend(c, states, steps, Receive(p, true));
  }

  lemma Assembling(c: Config, s: State, q: PeerId, rpc: LocalRpc)
    requires GoodConfig(c) && q in c.ids && q != c.proposer && rpc.n == 2
    requires s == State(Init(c).nodes[q := Joining], Some((0, Negotiation(rpc, {c.proposer}, true))),
                        [Attempt(rpc, {q}, false, [])], {}, {(q, 0)})
    ensures var a := Consent(q, false, [c.proposer, q]);
      && NegoSound(c, s) && Enabled(c, s, a)
      && var t := Apply(c, s, a);
         && t.nego.None? && t.attempts == [Attempt(rpc, {q}, true, [c.proposer, q])]
         && q in t.nodes && t.nodes[q].Joining? && RunsAttempt(t, c.proposer, 0)
         && StartFor(c, t, 0, q) in t.flight
  {
    var (g, response, order) := (Negotiation(rpc, {c.proposer}, true), Some(Result.Ok((q, []))), [c.proposer, q]);
    PollAssembles(c.proposer, q, rpc);
    AssemblesAt(c, s.(consents := {}), NegotiationPoll(g, response, false, order, c.proposer), q, rpc);
    assert s.consents - {(q, 0)} == {};
  }

  lemma PollAssembles(p: PeerId, q: PeerId, rpc: LocalRpc)
    requires rpc.n == 2 && p != q
    ensures var (g, response, order) := (Negotiation(rpc, {p}, true), Some(Result.Ok((q, []))), [p, q]);
      && Lists(g, response, order) && CanStart(p, New(order, p))
      && NegotiationPoll(g, response, false, order, p)
         == Assembled(New(order, p), Written(StartMsg(New(order, p), rpc.args)), Elems(order))
  {
    var (g, response, order) := (Negotiation(rpc, {p}, true), Some(Result.Ok((q, []))), [p, q]);
    assert Joined(g, response) == {p, q} == Elems(order);
    SortKeepsDistinct(order);
    assert p in Elems(Sort(order));
  }

  lemma AssemblesAt(c: Config, s: State, out: NegotiationMsg, q: PeerId, rpc: LocalRpc)
    requires s.nego == Some((0, Negotiation(rpc, {c.proposer}, true))) && s.attempts == [Attempt(rpc, {q}, false, [])]
    requires var order := [c.proposer, q]; var parties := New(order, c.proposer);
      && out == Assembled(parties, Written(StartMsg(parties, rpc.args)), Elems(order))
      && CanStart(c.proposer, parties)
    requires q in s.nodes && q != c.proposer && s.nodes[q].Joining?
    ensures var t := AfterPoll(c, s, out, [c.proposer, q]);
      && t.nego.None? && t.attempts == [Attempt(rpc, {q}, true, [c.proposer, q])]
      && q in t.nodes && t.nodes[q].Joining? && RunsAttempt(t, c.proposer, 0)
      && StartFor(c, t, 0, q) in t.flight
  {
    assert q in Elems([c.proposer, q]);
    assert [Attempt(rpc, {q}, false, [])][0 := Attempt(rpc, {q}, true, [c.proposer, q])]
        == [Attempt(rpc, {q}, true, [c.proposer, q])];
  }

  /** Nothing above is said in vain: whatever is asked of two parties, if the start
      message fits, there is a run in which proposer and peer come to run the session. */
  lemma TwoPartySession(c: Config, q: PeerId, rpc: LocalRpc) returns (states: seq<State>, steps: seq<Step>)
    requires GoodConfig(c) && q in c.ids && q != c.proposer && rpc.n == 2
    requires Fits(c, Attempt(rpc, {q}, true, [c.proposer, q]))
    ensures Run(c, states, steps)
    ensures RunsAttempt(states[|steps|], c.proposer, 0) && RunsAttempt(states[|steps|], q, 0)
  {
    states, steps := AskedAndAgreed(c, q, rpc);
    Assembling(c, states[2], q, rpc);
    states, steps := Extend(c, states, steps, Consent(q, false, [c.proposer, q]));
    var (s, p) := (states[3], StartFor(c, states[3], 0, q));
    RunSound(c, states, steps, 3);
    FittingStartRuns(c, s, p);
    states, steps := Extend(c, states, steps, Receive(p, true));
  }

  // ---------- sessions nobody proposed ----------

  /** Every session is one begun by a start message. */
  ghost predicate AllProposed(s: State) {
    forall q :: q in s.nodes && s.nodes[q].Running? ==> s.nodes[q].session.origin.Some?
  }

  /** The payload parses to a start message, for a party this node can set up. */
  predicate Begins(c: Config, to: PeerId, payload: Bytes) {
    match Parsed(payload, to, c.valid)
    case Done(Some(m)) => CanStart(to, m.parties)
    case _ => false
  }

  /** Such payloads are the ones a joining node begins a session on. */
  lemma BeginsExactly(c: Config, packet: Packet)
    ensures AfterReading(c, packet).Running? <==> Begins(c, packet.to, packet.payload)
  {
  }

  /** The step at which a stray broadcast begins a session. */
  ghost predicate StrayBegins(c: Config, s: State, a: Step) {
    && a.Receive? && a.packet.origin.OfOther?
    && a.packet.to in s.nodes && s.nodes[a.packet.to].Joining?
    && Begins(c, a.packet.to, a.packet.payload)
  }

  /** Start messages are not told apart from computation broadcasts, which travel
      under the same message type: a stray broadcast that parses begins a session
      at a joining node that can set it up, and crashes one that cannot. */
  lemma StrayBroadcastBeginsSession(c: Config, s: State, q: PeerId, m: StartMsg)
    requires GoodConfig(c) && q in s.nodes && s.nodes[q].Joining? && (q == c.proposer ==> s.nego.None?)
    requires s.nego.Some? ==> s.nego.value.0 < |s.attempts|
    requires WellFormed(m.parties, c.valid) && |PeersetBytes(m)| < Varint.U64 && |m.body| < Varint.U64
    requires |Wire(m)| <= BufIo.CAPACITY
    requires Packet(q, Wire(m), OfOther) in s.flight
    ensures var a := Receive(Packet(q, Wire(m), OfOther), true);
      && Enabled(c, s, a)
      && (StrayBegins(c, s, a) <==> |m.parties.peers| >= 2 && q in m.parties.peers)
      && Apply(c, s, a).nodes[q]
         == if StrayBegins(c, s, a) then Running(Session(None, m.parties.(local := q), m.body, |m.parties.peers|))
           else Crashed
  {
    StrayParses(c, q, m);
  }

  lemma StrayParses(c: Config, q: PeerId, m: StartMsg)
    requires WellFormed(m.parties, c.valid) && |PeersetBytes(m)| < Varint.U64 && |m.body| < Varint.U64
    requires |Wire(m)| <= BufIo.CAPACITY
    ensures Phase2Poll(Some(Coord(Wire(m))), false, q, c.valid) == Started(m.parties.(local := q), m.body)
  {
    FittingReturns(m, q, c.valid);
    WrittenOrLost(m);
  }

  /** Only a joining node can begin a session by reading a message. */
  lemma ReceiveChanges(c: Config, s: State, packet: Packet, known: bool)
    requires Sound(c, s) && Enabled(c, s, Receive(packet, known))
    ensures var (t, q) := (Apply(c, s, Receive(packet, known)), packet.to);
      && t.nodes == s.nodes[q := t.nodes[q]]
      && (s.nodes[q].Joining? ==> t.nodes[q] == AfterReading(c, packet))
      && (!s.nodes[q].Joining? ==> t.nodes[q] == s.nodes[q] || t.nodes[q].Joining?)
  {
  }

  lemma ReceiveProposed(c: Config, s: State, packet: Packet, known: bool)
    requires GoodConfig(c) && Sound(c, s) && Enabled(c, s, Receive(packet, known)) && AllProposed(s)
    ensures AllProposed(Apply(c, s, Receive(packet, known))) <==> !StrayBegins(c, s, Receive(packet, known))
  {
    var (t, q) := (Apply(c, s, Receive(packet, known)), packet.to);
    ReceiveChanges(c, s, packet, known);
    OriginOfReading(c, packet);
    BeginsExactly(c, packet);
    if packet.origin.OfProposal? {
      ProposalsBeginNothing(c, s, packet);
    }
    OneNodeProposed(s, t, q);
  }

  lemma OneNodeProposed(s: State, t: State, q: PeerId)
    requires AllProposed(s) && q in s.nodes && q in t.nodes && t.nodes == s.nodes[q := t.nodes[q]]
    ensures AllProposed(t) <==> (t.nodes[q].Running? ==> t.nodes[q].session.origin.Some?)
  {
  }

  /** A step leaves only proposed sessions exactly when it is not a stray broadcast beginning one. */
  lemma StepProposed(c: Config, s: State, a: Step)
    requires GoodConfig(c) && Sound(c, s) && Enabled(c, s, a) && AllProposed(s)
    ensures AllProposed(Apply(c, s, a)) <==> !StrayBegins(c, s, a)
  {
    match a
    case Receive(packet, known) => ReceiveProposed(c, s, packet, known);
    case Propose(_, _) =>
    case Consent(_, _, _) =>
    case GiveUp =>
    case JoinTimeout(_) =>
    case End(_) =>
    case Stray(_, _) =>
  }

  /** In a run every session is one of the proposer's, at every node, if and only if
      no joining node ever reads a stray broadcast that begins one. */
  lemma OnlyProposedSessions(c: Config, states: seq<State>, steps: seq<Step>)
    requires Run(c, states, steps)
    ensures (forall i :: 0 <= i < |states| ==> AllProposed(states[i]))
       <==> (forall i :: 0 <= i < |steps| ==> !StrayBegins(c, states[i], steps[i]))
  {
    if forall i :: 0 <= i < |steps| ==> !StrayBegins(c, states[i], steps[i]) {
      forall i | 0 <= i < |states| ensures AllProposed(states[i]) {
        RunProposed(c, states, steps, i);
      }
    } else {
      var i :| 0 <= i < |steps| && StrayBegins(c, states[i], steps[i]);
      RunSound(c, states, steps, i);
      StepAt(c, states, steps, i);
      if AllProposed(states[i]) {
        StepProposed(c, states[i], steps[i]);
        assert !AllProposed(states[i + 1]);
      }
    }
  }

  lemma {:induction false} RunProposed(c: Config, states: seq<State>, steps: seq<Step>, i: nat)
    requires Run(c, states, steps) && i < |states|
    requires forall j :: 0 <= j < i ==> !StrayBegins(c, states[j], steps[j])
    ensures AllProposed(states[i])
  {
    if i == 0 {
      assert states[0] == Init(c);
    } else {
      RunProposed(c, states, steps, i - 1);
      RunSound(c, states, steps, i - 1);
      StepAt(c, states, steps, i - 1);
      StepProposed(c, states[i - 1], steps[i - 1]);
    }
  }

  /** No stray broadcast on its way would begin a session. */
  ghost predicate HarmlessFlight(c: Config, s: State) {
    forall p :: p in s.flight && p.origin.OfOther? ==> !Begins(c, p.to, p.payload)
  }

  /** Stray broadcasts come from stray steps alone. */
  lemma StepHarmless(c: Config, s: State, a: Step)
    requires Sound(c, s) && Enabled(c, s, a) && HarmlessFlight(c, s)
    requires a.Stray? ==> !Begins(c, a.to, a.payload)
    ensures HarmlessFlight(c, Apply(c, s, a))
  {
    var t := Apply(c, s, a);
    forall p | p in t.flight && p.origin.OfOther? ensures !Begins(c, p.to, p.payload) {
      assert p in s.flight || (a.Stray? && p == Packet(a.to, a.payload, OfOther));
    }
  }

  lemma HarmlessNext(c: Config, states: seq<State>, steps: seq<Step>, i: nat)
    requires Run(c, states, steps) && i < |steps| && HarmlessFlight(c, states[i])
    requires steps[i].Stray? ==> !Begins(c, steps[i].to, steps[i].payload)
    ensures HarmlessFlight(c, states[i + 1])
  {
    RunSound(c, states, steps, i);
    StepAt(c, states, steps, i);
    StepHarmless(c, states[i], steps[i]);
  }

  lemma RunHarmless(c: Config, states: seq<State>, steps: seq<Step>, i: nat)
    requires Run(c, states, steps) && i < |states|
    requires forall j :: 0 <= j < |steps| && steps[j].Stray? ==> !Begins(c, steps[j].to, steps[j].payload)
    ensures HarmlessFlight(c, states[i])
  {
    var holds := (j: nat) => j < |states| ==> HarmlessFlight(c, states[j]);
    assert states[0] == Init(c);
    forall j: nat | j < |steps| && holds(j) ensures holds(j + 1) {
      HarmlessNext(c, states, steps, j);
    }
    Upwards(|steps|, holds, i);
  }

  /** In every run whose stray broadcasts are no start messages for their targets,
      every session any node runs was begun by a start message of the proposer, for
      a party the node belongs to. */
  lemma HarmlessStraysBeginNothing(c: Config, states: seq<State>, steps: seq<Step>, i: nat, q: PeerId)
    requires Run(c, states, steps) && i < |states| && q in states[i].nodes && states[i].nodes[q].Running?
    requires forall j :: 0 <= j < |steps| && steps[j].Stray? ==> !Begins(c, steps[j].to, steps[j].payload)
    ensures var a := states[i].nodes[q].session.origin;
      a.Some? && a.value < |states[i].attempts| && states[i].attempts[a.value].started
        && q in states[i].attempts[a.value].order
  {
    forall j | 0 <= j < |steps| ensures !StrayBegins(c, states[j], steps[j]) {
      RunHarmless(c, states, steps, j);
      StepAt(c, states, steps, j);
    }
    OnlyProposedSessions(c, states, steps);
    RunSound(c, states, steps, i);
    assert NodeSound(c, states[i], q);
  }

  // ---------- one node of this model and the daemon ----------

  /** A joining node here does what the daemon does: it crashes, waits, keeps joining
      or runs together with it, and then with the same parties, body and echo size. */
  lemma JoiningFollowsDaemon(dc: Daemon.Config, d: Daemon.State, out: Phase2Msg, origin: Origin)
    requires d.control.Joining?
    ensures var (t, x) := (Daemon.AfterJoin(dc, d, out), AfterJoining(dc.local, out, origin));
      && (x.Crashed? <==> t.control.Down?)
      && (x.Joining? <==> t.control.Joining?)
      && (x.Waiting? <==> t.coord != d.coord)
      && (x.Running? <==> t.execs != d.execs)
      && (x.Running? ==>
            var e := Daemon.Exec(d.control.id, d.next, None, x.session.parties, x.session.body, x.session.echoSize);
            t.execs == d.execs + [e])
  {
    var t := Daemon.AfterJoin(dc, d, out);
    assert out.Aborted? ==> |t.coord| == |d.coord| + 1;
    assert out.Started? && !t.control.Down? ==> |t.execs| == |d.execs| + 1;
  }

  /** So does the proposer with its negotiation. */
  lemma ProposingFollowsDaemon(c: Config, s: State, dc: Daemon.Config, d: Daemon.State, out: NegotiationMsg,
                               order: seq<PeerId>)
    requires s.nego.Some? && s.nego.value.0 < |s.attempts|
    requires d.control.Proposing? && d.control.g == s.nego.value.1 && dc.local == c.proposer
    requires out.Pending? ==> out.next.rpc == d.control.g.rpc
    ensures var (t, s') := (Daemon.AfterNegotiation(dc, d, out), AfterPoll(c, s, out, order));
      && (s'.nego.Some? <==> t.control.Proposing?)
      && (s'.nego.Some? ==> s'.nego.value.1 == t.control.g)
      && (out.Assembled? ==>
          && (s'.nodes[c.proposer].Crashed? <==> t.control.Down?)
          && (s'.nodes[c.proposer].Running? ==>
              var x := s'.nodes[c.proposer].session;
              t.execs == d.execs
                + [Daemon.Exec(d.control.id, d.next, Some(d.control.g.rpc.done), x.parties, x.body, x.echoSize)]))
  {
  }
}
