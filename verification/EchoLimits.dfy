/** What each hypothesis on echo rounds is for: runs of two parties that both follow
    the gadget, on a network that answers every request, in which dropping it lets a
    round go wrong. */
module EchoLimits {
  import opened Basics
  import opened Echo
  import opened EchoNetwork
  import opened EchoRounds

  // ---------- two messages and no own one ----------

  function TwoParties(hash: Bytes -> Bytes): Config {
    Config(2, {0, 1}, hash)
  }

  lemma QueueTwo(c: Config, s: State, a: Req, b: Req, kind: (State, Step) -> bool) returns (t: State)
    requires c == TwoParties(c.hash) && Reached(c, s, kind) && |s.parties| == 2
    requires forall s, x :: kind(s, Deliver(x))
    requires s.parties[0] == Fresh() && a != b && a in s.flight && b in s.flight && a.to == b.to == 0
    ensures Reached(c, t, kind) && |t.parties| == 2
    ensures t.parties[0] == Fresh().(queue := [Received(a), Received(b)])
  {
    var u := Go(c, s, Deliver(a), kind);
    assert u.parties[0].queue == [Received(a)];
    t := Go(c, u, Deliver(b), kind);
    assert t.parties[0].queue == [Received(a), Received(b)];
  }

  /** Party 0 takes up the first of two queued messages. */
  lemma TakeFirst(c: Config, s: State, m: Msg, l: Msg, kind: (State, Step) -> bool) returns (t: State)
    requires c == TwoParties(c.hash) && Reached(c, s, kind) && |s.parties| == 2 && kind(s, Take(0, []))
    requires s.parties[0].phase.Collecting? && s.parties[0].heap == [] && s.parties[0].queue == [m, l]
    ensures Reached(c, t, kind) && t == SetParty(s, 0, s.parties[0].(heap := [m], queue := [l]))
  {
    t := Go(c, s, Take(0, []), kind);
    assert [m, l][1..] == [l] && s.parties[0].heap + [m] == [m];
  }

  /** Two messages of party 1 and none of its own make party 0's batch, and a panic. */
  lemma TakeTwo(c: Config, s: State, a: Req, b: Req, kind: (State, Step) -> bool) returns (t: State)
    requires c == TwoParties(c.hash) && Reached(c, s, kind) && |s.parties| == 2
    requires forall s, p, order :: kind(s, Take(p, order))
    requires a.from == b.from && s.parties[0] == Fresh().(queue := [Received(a), Received(b)])
    ensures Reached(c, t, kind) && |t.parties| == 2 && t.parties[0].phase.Crashed?
  {
    var order := [Received(a), Received(b)];
    var u := TakeFirst(c, s, Received(a), Received(b), kind);
    assert u.parties[0].heap + [u.parties[0].queue[0]] == order;
    t := Go(c, u, Take(0, order), kind);
    CrashesExactlyWhen(c, u, Take(0, order), 0);
  }

  lemma BatchOfTwo(c: Config, s: State, a: Req, b: Req, kind: (State, Step) -> bool) returns (t: State)
    requires c == TwoParties(c.hash) && Reached(c, s, kind) && |s.parties| == 2
    requires forall s, x :: kind(s, Deliver(x))
    requires forall s, p, order :: kind(s, Take(p, order))
    requires s.parties[0] == Fresh() && a != b && a in s.flight && b in s.flight
    requires a.to == b.to == 0 && a.from == b.from
    ensures Reached(c, t, kind) && |t.parties| == 2 && t.parties[0].phase.Crashed?
  {
    t := QueueTwo(c, s, a, b, kind);
    t := TakeTwo(c, t, a, b, kind);
  }

  /** Party p broadcasts the same payload to itself and to party q. */
  lemma Broadcast(c: Config, s: State, p: nat, q: nat, body: Bytes, kind: (State, Step) -> bool) returns (t: State)
    requires c == TwoParties(c.hash) && Reached(c, s, kind) && |s.parties| == 2 && p < 2 && q == 1 - p
    requires s.parties[p].Alive() && |s.parties[p].queue| < 2 && kind(s, Submit(p, [body, body]))
    ensures Reached(c, t, kind) && |t.parties| == 2 && t.parties[q] == s.parties[q] && t.chan == s.chan
    ensures var (x, k) := (s.parties[p], |s.parties[p].subs|);
      && t.parties[p] == x.(subs := x.subs + [[body, body]], queue := x.queue + [Own(p, k, body)])
      && s.flight + {Req(p, q, k, body)} <= t.flight
      && s.open + {Req(p, q, k, body)} <= t.open
  {
    t := Go(c, s, Submit(p, [body, body]), kind);
    assert Req(p, q, |s.parties[p].subs|, body) in Links(2, p, |s.parties[p].subs|, [body, body]);
  }

  /** Faithful, but broadcasts do not wait for rounds. */
  ghost predicate Unpaced(s: State, a: Step) {
    Faithful(a) && !a.Intrude? && !a.Greet?
  }

  lemma SubmitsTwice(c: Config, x: Bytes, y: Bytes) returns (s: State)
    requires c == TwoParties(c.hash)
    ensures Reached(c, s, Unpaced) && |s.parties| == 2 && s.parties[0] == Fresh()
    ensures Req(1, 0, 0, x) in s.flight && Req(1, 0, 1, y) in s.flight
  {
    Start(c, Unpaced);
    s := Broadcast(c, Init(c), 1, 0, x, Unpaced);
    s := Broadcast(c, s, 1, 0, y, Unpaced);
  }

  /** Without the pace the panic is reachable: party 1 submits twice, both messages
      reach party 0 before it submits anything, and its batch closes without a
      message of its own. */
  lemma UnpacedRunPanics(hash: Bytes -> Bytes) returns (c: Config, s: State)
    ensures Everyone(c) && c.n == 2 && c.hash == hash
    ensures Reached(c, s, Unpaced) && |s.parties| == 2 && s.parties[0].phase.Crashed?
  {
    c := TwoParties(hash);
    s := SubmitsTwice(c, [7], [8]);
    s := BatchOfTwo(c, s, Req(1, 0, 0, [7]), Req(1, 0, 1, [8]), Unpaced);
  }

  /** Faithful and paced, but a party that has ended may broadcast for another session. */
  ghost predicate Proposing(s: State, a: Step) {
    Faithful(a) && Paced(s, a) && !a.Greet?
  }

  /** The pace is not enough: party 1 ends and proposes twice; party 0, still running,
      takes the empty proposals for messages of its session, and its batch closes
      without a message of its own. */
  lemma IntrudedRunPanics(hash: Bytes -> Bytes) returns (c: Config, s: State)
    ensures Everyone(c) && c.n == 2 && c.hash == hash
    ensures Reached(c, s, Proposing) && |s.parties| == 2 && s.parties[0].phase.Crashed?
  {
    c := TwoParties(hash);
    s := EndsAndProposes(c, Req(1, 0, 0, []), Req(1, 0, 1, []));
    s := BatchOfTwo(c, s, Req(1, 0, 0, []), Req(1, 0, 1, []), Proposing);
  }

  lemma EndsAndProposes(c: Config, a: Req, b: Req) returns (s: State)
    requires c == TwoParties(c.hash) && a.from == b.from == 1 && a.to == b.to == 0
    ensures Reached(c, s, Proposing) && |s.parties| == 2 && s.parties[0] == Fresh()
    ensures a in s.flight && b in s.flight
  {
    Start(c, Proposing);
    s := Go(c, Init(c), Stop(1), Proposing);
    s := Go(c, s, Intrude(a), Proposing);
    s := Go(c, s, Intrude(b), Proposing);
  }

  // ---------- a greeting and its alarm ----------

  ghost predicate GatedFaithful(s: State, a: Step) {
    Faithful(a) && Gated(s, a)
  }

  function Ask(): Req { Req(0, 1, 0, [7]) }
  function Told(): Req { Req(1, 0, 0, [8]) }

  /** Party 1 has broadcast and ended. */
  lemma OneEnds(c: Config) returns (s: State)
    requires c == TwoParties(c.hash)
    ensures Reached(c, s, GatedFaithful) && |s.parties| == 2 && s.chan == map[]
    ensures s.parties[0] == Fresh() && s.parties[1].phase.Stopped? && Told() in s.flight
  {
    Start(c, GatedFaithful);
    s := Broadcast(c, Init(c), 1, 0, [8], GatedFaithful);
    s := Go(c, s, Stop(1), GatedFaithful);
  }

  /** Party 0 broadcasts too late, and has both messages queued. */
  lemma ZeroAsks(c: Config, s: State) returns (t: State)
    requires c == TwoParties(c.hash) && Reached(c, s, GatedFaithful) && |s.parties| == 2 && s.chan == map[]
    requires s.parties[0] == Fresh() && Told() in s.flight
    ensures Reached(c, t, GatedFaithful) && |t.parties| == 2 && t.chan == map[] && t.parties[1] == s.parties[1]
    ensures t.parties[0].phase.Collecting? && t.parties[0].heap == []
    ensures t.parties[0].queue == [Own(0, 0, [7]), Received(Told())]
    ensures Ask() in t.flight && Ask() in t.open
  {
    var u := Broadcast(c, s, 0, 1, [7], GatedFaithful);
    assert u.parties[0].queue == [Own(0, 0, [7])];
    t := Go(c, u, Deliver(Told()), GatedFaithful);
    assert t.parties[0].queue == [Own(0, 0, [7]), Received(Told())];
  }

  lemma Batch(own: Msg, other: Msg) returns (order: seq<Msg>)
    requires own.sender < other.sender && own.response == Outgoing(0) && other.response.Incoming?
    ensures Drains([own, other], order) && Awaited(order) == Some(0)
  {
    order := [other, own];
    assert multiset([own, other]) == multiset{own, other};
  }

  /** Party 0 hashes the round and waits for party 1's answer. */
  lemma ZeroWaits(c: Config, s: State, own: Msg, other: Msg) returns (t: State, d: Bytes)
    requires c == TwoParties(c.hash) && NeverEmpty(c.hash) && Reached(c, s, GatedFaithful) && |s.parties| == 2
    requires s.parties[0].phase.Collecting? && s.parties[0].heap == [] && s.parties[0].queue == [own, other]
    requires own.sender < other.sender && own.response == Outgoing(0) && other.response.Incoming?
    ensures Reached(c, t, GatedFaithful) && |t.parties| == 2 && t.parties[1] == s.parties[1]
    ensures t.parties[0].phase == Waiting(0, d) && d != []
    ensures t.flight == s.flight && t.open == s.open && t.chan == s.chan
  {
    var order := Batch(own, other);
    var u := TakeFirst(c, s, own, other, GatedFaithful);
    assert u.parties[0].heap + [u.parties[0].queue[0]] == [own, other];
    t := Go(c, u, Take(0, order), GatedFaithful);
    d := c.hash(HashInput(order));
  }

  /** Party 1 takes the broadcast it gets too late for a proposal; party 0 sees an
      inconsistent echo. */
  lemma ZeroAlarmed(c: Config, s: State, d: Bytes) returns (t: State)
    requires c == TwoParties(c.hash) && Reached(c, s, GatedFaithful) && |s.parties| == 2
    requires s.parties[0].phase == Waiting(0, d) && d != [] && s.parties[1].phase.Stopped?
    requires Ask() in s.flight && Ask() in s.open && s.chan == map[]
    ensures Reached(c, t, GatedFaithful) && |t.parties| == 2
    ensures t.parties[0].phase == Stopped(Some(InconsistentEcho(0)))
  {
    var u := Go(c, s, Greet(Ask()), GatedFaithful);
    assert Outcomes(u, 0, 0) == [Ok((1, []))];
    assert Outcomes(u, 0, 0)[..1] == [Ok((1, []))];
    t := Go(c, u, Finish(0), GatedFaithful);
  }

  /** Gated, with one payload on all links and every request answered, an echo round
      can still end in an error: the answer was an ended party's consent to what it
      took for a proposal. */
  lemma GreetedRunAlarms(hash: Bytes -> Bytes) returns (c: Config, s: State)
    requires NeverEmpty(hash)
    ensures AllFollow(c) && c.n == 2 && c.hash == hash
    ensures Reached(c, s, GatedFaithful) && |s.parties| == 2
    ensures s.parties[0].phase == Stopped(Some(InconsistentEcho(0)))
  {
    c := TwoParties(hash);
    s := OneEnds(c);
    s := ZeroAsks(c, s);
    var d;
    s, d := ZeroWaits(c, s, Own(0, 0, [7]), Received(Told()));
    s := ZeroAlarmed(c, s, d);
  }
}
