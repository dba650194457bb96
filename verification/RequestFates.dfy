/** What becomes of requests: which steps answer or drop a completion handle, which
    computation runs for a request, which steps move a room and which panic. */
module RequestFates {
  import opened Basics
  import opened PeerOrder
  import opened Peersets
  import opened StartMessages
  import opened Coordination
  import opened Daemon
  import opened RoomLifecycle
  import Broadcasts

  // ---------- how a handle is answered ----------

  /** A request is refused: unknown room or protocol, or nobody waits at the mailbox. */
  ghost predicate Refuses(s: State, a: Step, d: nat) {
    && a.Request? && a.rpc.done == d
    && (a.room !in s.rpc || !a.known || !HasMailbox(s.coord, s.rpc[a.room]))
  }

  /** The computation that holds this handle comes to this end. */
  ghost predicate Finishes(s: State, a: Step, d: nat, how: Ending) {
    a.EndExec? && a.e < |s.execs| && s.execs[a.e].done == Some(d) && a.how == how
  }

  ghost predicate Answers(s: State, a: Step, d: nat, ok: bool) {
    Finishes(s, a, d, AgentDone(ok)) || (!ok && Refuses(s, a, d))
  }

  /** The handle goes unanswered: an echo failure, a proposal that overtakes the
      request, or a negotiation given up. */
  ghost predicate Drops(s: State, a: Step, d: nat) {
    || Finishes(s, a, d, EchoFailure)
    || (a.PollRoom? && a.i < |s.coord| && a.msg.Some? && a.msg.value.context.messageType.Coordination?
        && s.coord[a.i].letter.Some? && s.coord[a.i].letter.value.done == d)
    || (a.PollNegotiation? && s.control.Proposing? && s.control.g.rpc.done == d
        && a.timeout && !Complete(s.control.g, a.response))
  }

  lemma InAppended<T>(s: seq<T>, x: T, y: T)
    ensures y in s + [x] <==> y in s || y == x
  {
  }

  lemma StepAnswers(c: Config, s: State, a: Step, d: nat, ok: bool)
    requires Enabled(c, s, a)
    ensures Answer(d, ok) in Apply(c, s, a).answers <==> Answer(d, ok) in s.answers || Answers(s, a, d, ok)
  {
    match a
    case Request(room, known, rpc) => RequestAnswers(s, room, known, rpc, d, ok);
    case EndExec(e, how) => EndAnswers(s, e, how, d, ok);
    case PollRoom(i, msg, known) => RoomAnswersNothing(c, s, i, RoomPoll(s, i, msg), known);
    case PollJoin(msg, timeout) => JoinAnswersNothing(c, s, Phase2Poll(msg, timeout, c.local, c.valid));
    case PollNegotiation(response, timeout, order) =>
      NegotiationAnswersNothing(c, s, NegotiationPoll(s.control.g, response, timeout, order, c.local));
    case PollProxy(x, msg) => ProxyAnswersNothing(s, x, msg);
  }

  lemma RequestAnswers(s: State, room: RoomId, known: bool, rpc: LocalRpc, d: nat, ok: bool)
    ensures Answer(d, ok) in OnRequest(s, room, known, rpc).answers <==>
      Answer(d, ok) in s.answers || (!ok && Refuses(s, Request(room, known, rpc), d))
  {
    InAppended(s.answers, Answer(rpc.done, false), Answer(d, ok));
  }

  lemma EndAnswers(s: State, e: nat, how: Ending, d: nat, ok: bool)
    requires e < |s.execs|
    ensures Answer(d, ok) in OnEnd(s, e, how).answers <==>
      Answer(d, ok) in s.answers || Finishes(s, EndExec(e, how), d, AgentDone(ok))
  {
    if s.execs[e].done.Some? && how.AgentDone? {
      InAppended(s.answers, Answer(s.execs[e].done.value, how.ok), Answer(d, ok));
    }
  }

  lemma RoomAnswersNothing(c: Config, s: State, i: nat, out: Phase1Msg, known: bool)
    requires i < |s.coord|
    ensures AfterRoom(c, s, i, out, known).answers == s.answers
  {
  }

  lemma JoinAnswersNothing(c: Config, s: State, out: Phase2Msg)
    requires s.control.Joining?
    ensures var t := AfterJoin(c, s, out); t.answers == s.answers && t.dropped == s.dropped
  {
  }

  lemma NegotiationAnswersNothing(c: Config, s: State, out: NegotiationMsg)
    requires s.control.Proposing?
    ensures AfterNegotiation(c, s, out).answers == s.answers
  {
  }

  lemma ProxyAnswersNothing(s: State, x: nat, msg: Option<RoomMessage>)
    requires x < |s.proxies|
    ensures var t := OnProxy(s, x, msg); t.answers == s.answers && t.dropped == s.dropped
  {
  }

  lemma StepDrops(c: Config, s: State, a: Step, d: nat)
    requires Enabled(c, s, a)
    ensures d in Apply(c, s, a).dropped <==> d in s.dropped || Drops(s, a, d)
  {
    match a
    case PollRoom(i, msg, known) => RoomDrops(c, s, i, msg, known, d);
    case PollNegotiation(response, timeout, order) => NegotiationDrops(c, s, response, timeout, order, d);
    case EndExec(e, how) => EndDrops(s, e, how, d);
    case Request(_, _, _) =>
    case PollJoin(msg, timeout) => JoinAnswersNothing(c, s, Phase2Poll(msg, timeout, c.local, c.valid));
    case PollProxy(x, msg) => ProxyAnswersNothing(s, x, msg);
  }

  lemma RoomDrops(c: Config, s: State, i: nat, msg: Option<RoomMessage>, known: bool, d: nat)
    requires i < |s.coord|
    ensures d in OnRoom(c, s, i, msg, known).dropped <==> d in s.dropped || Drops(s, PollRoom(i, msg, known), d)
  {
    if s.coord[i].letter.Some? {
      InAppended(s.dropped, s.coord[i].letter.value.done, d);
    }
  }

  lemma NegotiationDrops(c: Config, s: State, response: Option<Broadcasts.Answer>, timeout: bool, order: seq<PeerId>,
                         d: nat)
    requires s.control.Proposing?
    ensures d in AfterNegotiation(c, s, NegotiationPoll(s.control.g, response, timeout, order, c.local)).dropped <==>
      d in s.dropped || (s.control.g.rpc.done == d && timeout && !Complete(s.control.g, response))
  {
    InAppended(s.dropped, s.control.g.rpc.done, d);
  }

  lemma EndDrops(s: State, e: nat, how: Ending, d: nat)
    requires e < |s.execs|
    ensures d in OnEnd(s, e, how).dropped <==> d in s.dropped || Finishes(s, EndExec(e, how), d, EchoFailure)
  {
    if s.execs[e].done.Some? {
      InAppended(s.dropped, s.execs[e].done.value, d);
    }
  }

  lemma {:induction false} InitEmpty(rooms: seq<RoomId>)
    ensures Init(rooms).answers == [] && Init(rooms).dropped == [] && Init(rooms).execs == []
    ensures Init(rooms).control.Idle? && forall j :: 0 <= j < |Init(rooms).coord| ==> Init(rooms).coord[j].letter.None?
    decreases |rooms|
  {
    if rooms == [] {
    } else {
      InitEmpty(rooms[..|rooms| - 1]);
    }
  }

  /** In every run a handle has been answered with success if and only if the agent of
      the computation holding it succeeded, and with failure if and only if the
      request was refused or that agent failed. */
  lemma AnsweredExactly(c: Config, states: seq<State>, steps: seq<Step>, i: nat, d: nat, ok: bool)
    requires Run(c, states, steps) && i < |states|
    ensures Answer(d, ok) in states[i].answers <==> exists j :: 0 <= j < i && Answers(states[j], steps[j], d, ok)
  {
    var has := (j: nat) => j < |states| && Answer(d, ok) in states[j].answers;
    var adds := (j: nat) => j < |steps| && j < |states| && Answers(states[j], steps[j], d, ok);
    InitEmpty(c.rooms);
    forall j: nat | j < |steps| ensures has(j + 1) <==> has(j) || adds(j) {
      AnsweredNext(c, states, steps, j, d, ok);
    }
    Recorded(|steps|, has, adds, i);
    assert forall j: nat :: j < i ==> (adds(j) <==> Answers(states[j], steps[j], d, ok));
  }

  lemma AnsweredNext(c: Config, states: seq<State>, steps: seq<Step>, i: nat, d: nat, ok: bool)
    requires Run(c, states, steps) && i < |steps|
    ensures Answer(d, ok) in states[i + 1].answers <==>
      Answer(d, ok) in states[i].answers || Answers(states[i], steps[i], d, ok)
  {
    StepAt(c, states, steps, i);
    StepAnswers(c, states[i], steps[i], d, ok);
  }

  /** And it has been dropped unanswered if and only if an echo failure ended its
      computation, a proposal overtook it or its negotiation was given up. */
  lemma DroppedExactly(c: Config, states: seq<State>, steps: seq<Step>, i: nat, d: nat)
    requires Run(c, states, steps) && i < |states|
    ensures d in states[i].dropped <==> exists j :: 0 <= j < i && Drops(states[j], steps[j], d)
  {
    var has := (j: nat) => j < |states| && d in states[j].dropped;
    var adds := (j: nat) => j < |steps| && j < |states| && Drops(states[j], steps[j], d);
    InitEmpty(c.rooms);
    forall j: nat | j < |steps| ensures has(j + 1) <==> has(j) || adds(j) {
      DroppedNext(c, states, steps, j, d);
    }
    Recorded(|steps|, has, adds, i);
    assert forall j: nat :: j < i ==> (adds(j) <==> Drops(states[j], steps[j], d));
  }

  lemma DroppedNext(c: Config, states: seq<State>, steps: seq<Step>, i: nat, d: nat)
    requires Run(c, states, steps) && i < |steps|
    ensures d in states[i + 1].dropped <==> d in states[i].dropped || Drops(states[i], steps[i], d)
  {
    StepAt(c, states, steps, i);
    StepDrops(c, states[i], steps[i], d);
  }

  lemma {:induction false} AnswerInBag(answers: seq<Answer>, x: Answer)
    requires x in answers
    ensures Bag(answers, AnswerOf)[x.done] >= 1
  {
    var k := |answers| - 1;
    if answers[k] != x {
      AnswerInBag(answers[..k], x);
    }
  }

  /** A handle dropped at some step, be it by an echo failure, is never answered, before or after. */
  lemma DroppedNeverAnswered(c: Config, states: seq<State>, steps: seq<Step>, i: nat, j: nat, d: nat, ok: bool)
    requires Run(c, states, steps) && j < i < |states| && !states[i].control.Down?
    requires Drops(states[j], steps[j], d)
    ensures Answer(d, ok) !in states[i].answers
  {
    DroppedExactly(c, states, steps, i, d);
    CompletionConservation(c, states, steps, i);
    var s := states[i];
    assert multiset(s.dropped)[d] >= 1;
    assert Places(s)[d] >= Bag(s.answers, AnswerOf)[d] + multiset(s.dropped)[d];
    assert Places(s)[d] <= 1;
    if Answer(d, ok) in s.answers {
      AnswerInBag(s.answers, Answer(d, ok));
    }
  }

  // ---------- what runs for a request ----------

  /** This request was made for this room, in a protocol that is known. */
  ghost predicate Asked(steps: seq<Step>, i: nat, id: RoomId, rpc: LocalRpc) {
    exists j :: 0 <= j < i && j < |steps| && steps[j] == Request(id, true, rpc)
  }

  ghost predicate RunsFor(e: Exec, rpc: LocalRpc) {
    e.done == Some(rpc.done) && e.body == rpc.args && e.n == rpc.n
  }

  ghost predicate ExecSound(c: Config, e: Exec, asked: (RoomId, LocalRpc) -> bool) {
    && CanStart(c.local, e.parties) && e.n == |e.parties.peers|
    && (e.done.Some? ==> exists rpc :: asked(e.id, rpc) && RunsFor(e, rpc))
  }

  ghost predicate Traced(c: Config, s: State, asked: (RoomId, LocalRpc) -> bool) {
    && (forall j :: 0 <= j < |s.coord| && s.coord[j].letter.Some? ==> asked(s.coord[j].id, s.coord[j].letter.value))
    && (s.control.Proposing? ==> asked(s.control.id, s.control.g.rpc) && c.local in s.control.g.peers)
    && (forall e :: 0 <= e < |s.execs| ==> ExecSound(c, s.execs[e], asked))
  }

  lemma RequestTraced(c: Config, s: State, room: RoomId, known: bool, rpc: LocalRpc,
                      asked: (RoomId, LocalRpc) -> bool)
    requires Traced(c, s, asked) && Table(s) && (known ==> asked(room, rpc))
    ensures Traced(c, OnRequest(s, room, known, rpc), asked)
  {
    var t := OnRequest(s, room, known, rpc);
    forall j | 0 <= j < |t.coord| && t.coord[j].letter.Some? ensures asked(t.coord[j].id, t.coord[j].letter.value) {
      assert t.coord[j].id == s.coord[j].id;
    }
  }

  lemma LaunchTraced(c: Config, s: State, id: RoomId, rx: Receiver, parties: Peerset, body: Bytes, n: nat,
                     done: Option<nat>, asked: (RoomId, LocalRpc) -> bool)
    requires Traced(c, s, asked) && n == |parties.peers|
    requires done.Some? ==> exists rpc :: asked(id, rpc) && done == Some(rpc.done) && body == rpc.args && n == rpc.n
    ensures Traced(c, Launch(c, s, id, rx, parties, body, n, done), asked)
  {
    var e := Exec(id, s.next, done, parties, body, n);
    if done.Some? {
      var rpc :| asked(id, rpc) && done == Some(rpc.done) && body == rpc.args && n == rpc.n;
      assert RunsFor(e, rpc);
    }
  }

  lemma NegotiationTraced(c: Config, s: State, response: Option<Broadcasts.Answer>, timeout: bool, order: seq<PeerId>,
                          asked: (RoomId, LocalRpc) -> bool)
    requires Traced(c, s, asked) && s.control.Proposing? && Lists(s.control.g, response, order)
    ensures Traced(c, AfterNegotiation(c, s, NegotiationPoll(s.control.g, response, timeout, order, c.local)), asked)
  {
    var g := s.control.g;
    if Complete(g, response) {
      AssembledFromOrder(g, response, order, c.local);
      LaunchTraced(c, s, s.control.id, s.control.rx, New(order, c.local), g.rpc.args, g.rpc.n, Some(g.rpc.done), asked);
    }
  }

  lemma RoomTraced(c: Config, s: State, i: nat, msg: Option<RoomMessage>, known: bool,
                   asked: (RoomId, LocalRpc) -> bool)
    requires Traced(c, s, asked) && s.control.Idle? && i < |s.coord|
    ensures Traced(c, OnRoom(c, s, i, msg, known), asked)
  {
    var rest := Without(s.coord, i);
    forall j | 0 <= j < |rest| && rest[j].letter.Some? ensures asked(rest[j].id, rest[j].letter.value) {
      assert rest[j] == s.coord[if j < i then j else j + 1];
    }
  }

  lemma StepTraced(c: Config, s: State, a: Step, asked: (RoomId, LocalRpc) -> bool)
    requires Traced(c, s, asked) && Table(s) && Enabled(c, s, a)
    requires a.Request? && a.known ==> asked(a.room, a.rpc)
    ensures Traced(c, Apply(c, s, a), asked)
  {
    match a
    case Request(room, known, rpc) => RequestTraced(c, s, room, known, rpc, asked);
    case PollRoom(i, msg, known) => RoomTraced(c, s, i, msg, known, asked);
    case PollJoin(msg, timeout) =>
      var out := Phase2Poll(msg, timeout, c.local, c.valid);
      if out.Started? {
        LaunchTraced(c, s, s.control.id, s.control.rx, out.parties, out.body, |out.parties.peers|, None, asked);
      }
    case PollNegotiation(response, timeout, order) => NegotiationTraced(c, s, response, timeout, order, asked);
    case EndExec(e, how) =>
      forall f | 0 <= f < |s.execs| - 1 ensures ExecSound(c, Without(s.execs, e)[f], asked) {
        assert Without(s.execs, e)[f] == s.execs[if f < e then f else f + 1];
      }
    case PollProxy(_, _) =>
  }

  lemma {:induction false} RunTraced(c: Config, states: seq<State>, steps: seq<Step>, i: nat,
                                     asked: (RoomId, LocalRpc) -> bool)
    requires Run(c, states, steps) && i < |states|
    requires forall id, rpc :: Asked(steps, i, id, rpc) ==> asked(id, rpc)
    ensures Traced(c, states[i], asked)
  {
    if i == 0 {
      InitEmpty(c.rooms);
    } else {
      RunTraced(c, states, steps, i - 1, asked);
      RunTable(c, states, steps, i - 1);
      StepAt(c, states, steps, i - 1);
      assert steps[i - 1].Request? && steps[i - 1].known ==> Asked(steps, i, steps[i - 1].room, steps[i - 1].rpc);
      StepTraced(c, states[i - 1], steps[i - 1], asked);
    }
  }

  /** In every run a computation that holds a completion handle is the one that was
      requested: in the room it was requested for, with the arguments and for as many
      parties. Every computation is over a list of at least two, this node among
      them, and its echo gadget is as large as the list. */
  lemma ComputationsAsRequested(c: Config, states: seq<State>, steps: seq<Step>, i: nat, e: nat)
    requires Run(c, states, steps) && i < |states| && e < |states[i].execs|
    ensures var x := states[i].execs[e];
      && c.local in x.parties.peers && x.n == |x.parties.peers| >= 2
      && (x.done.Some? ==> exists rpc :: Asked(steps, i, x.id, rpc) && RunsFor(x, rpc))
  {
    RunTraced(c, states, steps, i, (id, rpc) => Asked(steps, i, id, rpc));
  }

  // ---------- when the daemon panics ----------

  ghost predicate JoinPanics(c: Config, m: RoomMessage) {
    || m.context.messageType.Computation?
    || match Parsed(m.payload, c.local, c.valid)
       case Panicked => true
       case Done(None) => false
       case Done(Some(start)) => |start.parties.peers| < 2 || c.local !in start.parties.peers
  }

  /** A message of the wrong kind, a waiting room nobody can reach, a start message
      that cannot be decoded or names no party of this node, a request for fewer
      than two parties, or a stranger's message in a running computation. */
  ghost predicate Panics(c: Config, s: State, a: Step) {
    match a
    case Request(_, _, _) => false
    case EndExec(_, _) => false
    case PollRoom(i, msg, _) =>
      i < |s.coord| && if msg.Some? then msg.value.context.messageType.Computation? else !Reachable(s, s.coord[i])
    case PollJoin(msg, _) => msg.Some? && JoinPanics(c, msg.value)
    case PollNegotiation(response, _, _) =>
      s.control.Proposing? && Complete(s.control.g, response) && s.control.g.rpc.n < 2
    case PollProxy(x, msg) =>
      && x < |s.proxies| && Listening(s, s.proxies[x].fwd)
      && msg.Some? && msg.value.peer !in s.proxies[x].parties.peers
  }

  lemma RoomPanics(c: Config, s: State, i: nat, msg: Option<RoomMessage>, known: bool)
    requires Table(s) && s.control.Idle? && i < |s.coord|
    ensures OnRoom(c, s, i, msg, known).control.Down? <==> Panics(c, s, PollRoom(i, msg, known))
  {
    if msg.None? {
      PanicExactlyWhenUnreachable(c, s, i, known);
    }
  }

  lemma NegotiationPanics(c: Config, s: State, response: Option<Broadcasts.Answer>, timeout: bool, order: seq<PeerId>)
    requires s.control.Proposing? && Lists(s.control.g, response, order) && c.local in s.control.g.peers
    ensures AfterNegotiation(c, s, NegotiationPoll(s.control.g, response, timeout, order, c.local)).control.Down?
      <==> Panics(c, s, PollNegotiation(response, timeout, order))
  {
    var g := s.control.g;
    if Complete(g, response) {
      AssembledFromOrder(g, response, order, c.local);
      assert c.local in Joined(g, response);
      assert c.local in Elems(New(order, c.local).peers);
    }
  }

  lemma ProposerCounted(c: Config, states: seq<State>, steps: seq<Step>, i: nat)
    requires Run(c, states, steps) && i < |states| && states[i].control.Proposing?
    ensures c.local in states[i].control.g.peers
  {
    RunTraced(c, states, steps, i, (id, rpc) => Asked(steps, i, id, rpc));
  }

  /** In every run a step takes the daemon down exactly for one of these reasons. */
  lemma PanicsExactlyWhen(c: Config, states: seq<State>, steps: seq<Step>, i: nat)
    requires Run(c, states, steps) && i < |steps|
    ensures states[i + 1].control.Down? <==> Panics(c, states[i], steps[i])
  {
    RunTable(c, states, steps, i);
    if states[i].control.Proposing? {
      ProposerCounted(c, states, steps, i);
    }
    StepAt(c, states, steps, i);
    StepPanics(c, states[i], steps[i]);
  }

  lemma StepPanics(c: Config, s: State, a: Step)
    requires Table(s) && Enabled(c, s, a) && (s.control.Proposing? ==> c.local in s.control.g.peers)
    ensures Apply(c, s, a).control.Down? <==> Panics(c, s, a)
  {
    match a
    case PollRoom(j, msg, known) => RoomPanics(c, s, j, msg, known);
    case PollNegotiation(response, timeout, order) => NegotiationPanics(c, s, response, timeout, order);
    case Request(_, _, _) =>
    case EndExec(_, _) =>
    case PollJoin(msg, timeout) => JoinPanicsExactly(c, s, msg, timeout);
    case PollProxy(x, msg) => ProxyPanicsExactly(s, x, msg);
  }

  lemma JoinPanicsExactly(c: Config, s: State, msg: Option<RoomMessage>, timeout: bool)
    requires s.control.Joining?
    ensures AfterJoin(c, s, Phase2Poll(msg, timeout, c.local, c.valid)).control.Down? <==>
      msg.Some? && JoinPanics(c, msg.value)
  {
  }

  lemma ProxyPanicsExactly(s: State, x: nat, msg: Option<RoomMessage>)
    requires s.control.Idle? && x < |s.proxies|
    ensures OnProxy(s, x, msg).control.Down? <==>
      Listening(s, s.proxies[x].fwd) && msg.Some? && msg.value.peer !in s.proxies[x].parties.peers
  {
  }

  // ---------- how rooms move ----------

  /** A waiting room taken up by a proposal for a known protocol, or by its own request. */
  ghost predicate Leaves(s: State, a: Step, id: RoomId) {
    && a.PollRoom? && a.i < |s.coord| && s.coord[a.i].id == id
    && if a.msg.Some? then a.rknown else s.coord[a.i].letter.Some?
  }

  /** Phase 2 ends without a session: it has timed out, or reads no start message. */
  ghost predicate Abandons(c: Config, msg: Option<RoomMessage>, timeout: bool) {
    match msg
    case None => timeout
    case Some(m) => m.context.messageType.Coordination? && Parsed(m.payload, c.local, c.valid) == Done(None)
  }

  /** A room that comes back to phase 1. */
  ghost predicate ComesBack(c: Config, s: State, a: Step, id: RoomId) {
    || (a.PollJoin? && s.control.Joining? && s.control.id == id && Abandons(c, a.jmsg, a.jtimeout))
    || (a.PollNegotiation? && s.control.Proposing? && s.control.id == id
        && a.timeout && !Complete(s.control.g, a.response))
    || (a.PollProxy? && a.x < |s.proxies| && s.proxies[a.x].id == id && !Listening(s, s.proxies[a.x].fwd))
  }

  lemma ParkWaits(s: State, id: RoomId, rx: Receiver, register: bool, other: RoomId)
    ensures Waiting(Park(s, id, rx, register), other) <==> Waiting(s, other) || other == id
  {
    var t := Park(s, id, rx, register);
    if Waiting(s, other) {
      var j :| 0 <= j < |s.coord| && s.coord[j].id == other;
      assert t.coord[j].id == other;
    }
    assert t.coord[|s.coord|].id == id;
  }

  lemma WithoutWaits(s: State, i: nat, other: RoomId)
    requires Distinct(Held(s)) && i < |s.coord|
    ensures Waiting(s.(coord := Without(s.coord, i)), other) <==> Waiting(s, other) && other != s.coord[i].id
  {
    var t := s.(coord := Without(s.coord, i));
    if Waiting(t, other) {
      var j :| 0 <= j < |t.coord| && t.coord[j].id == other;
      var k := if j < i then j else j + 1;
      assert t.coord[j] == s.coord[k];
      WaitingOnce(s, i, k);
    }
    if Waiting(s, other) && other != s.coord[i].id {
      var k :| 0 <= k < |s.coord| && s.coord[k].id == other;
      assert t.coord[if k < i then k else k - 1] == s.coord[k];
    }
  }

  lemma RequestWaits(s: State, room: RoomId, known: bool, rpc: LocalRpc, id: RoomId)
    ensures Waiting(OnRequest(s, room, known, rpc), id) <==> Waiting(s, id)
  {
    var t := OnRequest(s, room, known, rpc);
    assert forall j :: 0 <= j < |s.coord| ==> t.coord[j].id == s.coord[j].id;
  }

  lemma RoomWaits(c: Config, s: State, i: nat, msg: Option<RoomMessage>, known: bool, id: RoomId)
    requires Distinct(Held(s)) && s.control.Idle? && i < |s.coord|
    requires !OnRoom(c, s, i, msg, known).control.Down?
    ensures Waiting(OnRoom(c, s, i, msg, known), id) <==>
      Waiting(s, id) && !Leaves(s, PollRoom(i, msg, known), id)
  {
    var p := s.coord[i];
    var s0 := s.(coord := Without(s.coord, i));
    WithoutWaits(s, i, id);
    var s1 := s0.(dropped := s.dropped + LetterDone(p));
    assert Waiting(s1, id) == Waiting(s0, id);
    ParkWaits(s1, p.id, p.rx, true, id);
  }

  /** In every run, short of a panic, a room waits after a step exactly if it waited
      and was not taken up, or if it comes back: phase 2 abandoned, a negotiation
      given up, or a proxy nobody listens to. */
  lemma WaitingExactly(c: Config, states: seq<State>, steps: seq<Step>, i: nat, id: RoomId)
    requires Run(c, states, steps) && i < |steps| && !states[i + 1].control.Down?
    ensures Waiting(states[i + 1], id) <==>
      (Waiting(states[i], id) && !Leaves(states[i], steps[i], id)) || ComesBack(c, states[i], steps[i], id)
  {
    RoomExclusivity(c, states, steps, i);
    StepAt(c, states, steps, i);
    StepWaits(c, states[i], steps[i], id);
  }

  lemma StepWaits(c: Config, s: State, a: Step, id: RoomId)
    requires Distinct(Held(s)) && Enabled(c, s, a) && !Apply(c, s, a).control.Down?
    ensures Waiting(Apply(c, s, a), id) <==> (Waiting(s, id) && !Leaves(s, a, id)) || ComesBack(c, s, a, id)
  {
    match a
    case Request(room, known, rpc) => RequestWaits(s, room, known, rpc, id);
    case PollRoom(i, msg, known) => RoomWaits(c, s, i, msg, known, id);
    case PollJoin(msg, timeout) => JoinWaits(c, s, msg, timeout, id);
    case PollNegotiation(response, timeout, order) => NegotiationWaits(c, s, response, timeout, order, id);
    case EndExec(e, how) => assert Apply(c, s, a).coord == s.coord;
    case PollProxy(x, msg) => ProxyWaits(c, s, x, msg, id);
  }

  lemma JoinWaits(c: Config, s: State, msg: Option<RoomMessage>, timeout: bool, id: RoomId)
    requires s.control.Joining?
    ensures Waiting(AfterJoin(c, s, Phase2Poll(msg, timeout, c.local, c.valid)), id) <==>
      Waiting(s, id) || (s.control.id == id && Abandons(c, msg, timeout))
  {
    ParkWaits(s, s.control.id, s.control.rx, s.control.id in s.rpc, id);
  }

  lemma NegotiationWaits(c: Config, s: State, response: Option<Broadcasts.Answer>, timeout: bool, order: seq<PeerId>,
                         id: RoomId)
    requires s.control.Proposing?
    ensures Waiting(AfterNegotiation(c, s, NegotiationPoll(s.control.g, response, timeout, order, c.local)), id) <==>
      Waiting(s, id) || (s.control.id == id && timeout && !Complete(s.control.g, response))
  {
    var s1 := s.(dropped := s.dropped + [s.control.g.rpc.done]);
    assert Waiting(s1, id) == Waiting(s, id);
    ParkWaits(s1, s.control.id, s.control.rx, true, id);
  }

  lemma ProxyWaits(c: Config, s: State, x: nat, msg: Option<RoomMessage>, id: RoomId)
    requires s.control.Idle? && x < |s.proxies|
    ensures Waiting(OnProxy(s, x, msg), id) <==>
      Waiting(s, id) || (s.proxies[x].id == id && !Listening(s, s.proxies[x].fwd))
  {
    var s1 := s.(proxies := Without(s.proxies, x));
    assert Waiting(s1, id) == Waiting(s, id);
    ParkWaits(s1, s.proxies[x].id, s.proxies[x].rx, true, id);
  }

  // ---------- the table of rooms ----------

  /** A room gets an entry when it is parked: its proposal refused, its negotiation
      given up, or nobody listening to its proxy; not when phase 2 is abandoned. */
  ghost predicate Registers(c: Config, s: State, a: Step, id: RoomId) {
    || (a.PollRoom? && a.i < |s.coord| && s.coord[a.i].id == id && a.msg.Some? && !a.rknown)
    || (!a.PollJoin? && ComesBack(c, s, a, id))
  }

  /** A request for a known protocol uses up the room's entry, whether or not anybody
      still waits at its mailbox. */
  ghost predicate UsesEntry(a: Step, id: RoomId) {
    a.Request? && a.room == id && a.known
  }

  lemma RoomEntries(c: Config, s: State, i: nat, msg: Option<RoomMessage>, known: bool, id: RoomId)
    requires s.control.Idle? && i < |s.coord| && !OnRoom(c, s, i, msg, known).control.Down?
    ensures id in OnRoom(c, s, i, msg, known).rpc <==> id in s.rpc || Registers(c, s, PollRoom(i, msg, known), id)
  {
  }

  lemma NegotiationEntries(c: Config, s: State, response: Option<Broadcasts.Answer>, timeout: bool, order: seq<PeerId>,
                           id: RoomId)
    requires s.control.Proposing?
    ensures id in AfterNegotiation(c, s, NegotiationPoll(s.control.g, response, timeout, order, c.local)).rpc <==>
      id in s.rpc || (s.control.id == id && timeout && !Complete(s.control.g, response))
  {
  }

  lemma JoinEntries(c: Config, s: State, out: Phase2Msg, id: RoomId)
    requires s.control.Joining?
    ensures id in AfterJoin(c, s, out).rpc <==> id in s.rpc
  {
  }

  lemma StepEntries(c: Config, s: State, a: Step, id: RoomId)
    requires Enabled(c, s, a) && !Apply(c, s, a).control.Down?
    ensures id in Apply(c, s, a).rpc <==> (id in s.rpc && !UsesEntry(a, id)) || Registers(c, s, a, id)
  {
    match a
    case PollRoom(i, msg, known) => RoomEntries(c, s, i, msg, known, id);
    case PollNegotiation(response, timeout, order) => NegotiationEntries(c, s, response, timeout, order, id);
    case PollJoin(msg, timeout) => JoinEntries(c, s, Phase2Poll(msg, timeout, c.local, c.valid), id);
    case Request(_, _, _) =>
    case EndExec(_, _) =>
    case PollProxy(_, _) =>
  }

  /** In every run, short of a panic, a room is in the table after a step exactly if it
      was and no request used its entry up, or if it is parked with a new one. */
  lemma EntriesExactly(c: Config, states: seq<State>, steps: seq<Step>, i: nat, id: RoomId)
    requires Run(c, states, steps) && i < |steps| && !states[i + 1].control.Down?
    ensures id in states[i + 1].rpc <==>
      (id in states[i].rpc && !UsesEntry(steps[i], id)) || Registers(c, states[i], steps[i], id)
  {
    StepAt(c, states, steps, i);
    StepEntries(c, states[i], steps[i], id);
  }
}
