/** Where agreement ends: a run in which an echo round ends well although two
    parties that follow the gadget have hashed different payloads. */
module EchoCollisions {
  import opened Basics
  import opened Echo
  import opened EchoNetwork

  ghost predicate Anything(s: State, a: Step) {
    true
  }

  ghost predicate Reachable(c: Config, s: State) {
    Reached(c, s, Anything)
  }

  lemma Move(c: Config, s: State, a: Step) returns (t: State)
    requires Reachable(c, s) && |s.parties| == c.n && Enabled(c, s, a)
    ensures Reachable(c, t) && t == Apply(c, s, a)
  {
    t := Go(c, s, a, Anything);
  }

  /** Party p is collecting, with an empty queue. */
  ghost predicate Listens(c: Config, s: State, p: nat) {
    && |s.parties| == c.n && p < c.n && p in c.honest
    && s.parties[p].phase.Collecting? && s.parties[p].queue == []
  }

  function Hear(s: State, p: nat, m: Msg): State
    requires p < |s.parties|
  {
    SetParty(s, p, s.parties[p].(heap := s.parties[p].heap + [m]))
  }

  /** Party p broadcasts and takes its own message up. */
  lemma Broadcast(c: Config, s: State, p: nat, payloads: seq<Bytes>) returns (t: State)
    requires Reachable(c, s) && Listens(c, s, p) && |payloads| == c.n && |s.parties[p].heap| + 1 < c.n
    ensures Reachable(c, t)
    ensures var (k, x) := (|s.parties[p].subs|, s.parties[p]);
      t == SetParty(s, p, x.(subs := x.subs + [payloads], heap := x.heap + [Own(p, k, payloads[p])]))
           .(flight := s.flight + Links(c.n, p, k, payloads), open := s.open + Links(c.n, p, k, payloads))
  {
    var t1 := Move(c, s, Submit(p, payloads));
    assert t1.parties[p].queue == [Own(p, |s.parties[p].subs|, payloads[p])];
    t := Move(c, t1, Take(p, []));
    assert t1.parties[p].queue[1..] == [];
    assert t.parties == s.parties[p := t.parties[p]];
  }

  /** A message in flight reaches p and is taken up. */
  lemma HearOne(c: Config, s: State, p: nat, req: Req) returns (t: State)
    requires Reachable(c, s) && Listens(c, s, p) && |s.parties[p].heap| + 1 < c.n
    requires req in s.flight && req.to == p
    ensures Reachable(c, t) && t == Hear(s, p, Received(req)).(flight := s.flight - {req})
  {
    var t1 := Move(c, s, Deliver(req));
    assert t1.parties[p].queue == [Received(req)];
    t := Move(c, t1, Take(p, []));
    assert t1.parties[p].queue[1..] == [];
    assert t.parties == s.parties[p := t.parties[p]];
  }

  ghost predicate Forgeable(c: Config, req: Req) {
    req.from !in c.honest && req.from < c.n && req.to < c.n && req.from != req.to
  }

  lemma HearForged(c: Config, s: State, p: nat, req: Req) returns (t: State)
    requires Reachable(c, s) && Listens(c, s, p) && |s.parties[p].heap| + 1 < c.n
    requires Forgeable(c, req) && req.to == p
    ensures Reachable(c, t) && t == Hear(s, p, Received(req)).(flight := s.flight - {req})
  {
    var t1 := Move(c, s, Forge(req));
    assert t1.flight - {req} == s.flight - {req};
    t := HearOne(c, t1, p, req);
  }

  /** A forged message on p's queue. */
  lemma QueueForged(c: Config, s: State, p: nat, req: Req) returns (t: State)
    requires Reachable(c, s) && Listens(c, s, p) && c.n > 0 && Forgeable(c, req) && req.to == p
    ensures Reachable(c, t)
    ensures t == SetParty(s, p, s.parties[p].(queue := [Received(req)])).(flight := s.flight - {req})
  {
    var t1 := Move(c, s, Forge(req));
    assert t1.flight - {req} == s.flight - {req};
    t := Move(c, t1, Deliver(req));
    assert t.parties[p].queue == [Received(req)];
  }

  /** The forged message that closes p's batch. */
  lemma HearLast(c: Config, s: State, p: nat, req: Req, order: seq<Msg>) returns (t: State)
    requires Reachable(c, s) && Listens(c, s, p) && |s.parties[p].heap| + 1 == c.n
    requires Forgeable(c, req) && req.to == p
    requires Drains(s.parties[p].heap + [Received(req)], order) && Awaited(order).Some?
    ensures Reachable(c, t)
    ensures var (x, d) := (s.parties[p], c.hash(HashInput(order)));
      t == SetParty(s, p, x.(phase := Waiting(Awaited(order).value, d), heap := [], log := x.log + [order]))
           .(flight := s.flight - {req}, acks := s.acks + AckAll(Acks(order), d))
  {
    var u := QueueForged(c, s, p, req);
    t := Move(c, u, Take(p, order));
    assert u.parties[p].queue[1..] == [];
    assert t == Close(c, u, p, order, []);
    assert t.parties == s.parties[p := t.parties[p]];
  }

  /** Party p takes up one message in flight and one forged one. */
  lemma HearTwo(c: Config, s: State, p: nat, req: Req, f: Req) returns (t: State)
    requires Reachable(c, s) && Listens(c, s, p) && |s.parties[p].heap| + 2 < c.n
    requires req in s.flight && req.to == p && Forgeable(c, f) && f.to == p
    ensures Reachable(c, t)
    ensures var x := s.parties[p];
      t == SetParty(s, p, x.(heap := x.heap + [Received(req)] + [Received(f)])).(flight := s.flight - {req} - {f})
  {
    var s1 := HearOne(c, s, p, req);
    t := HearForged(c, s1, p, f);
    assert t.parties == s.parties[p := t.parties[p]];
  }

  lemma Overwrite(s: State, p: nat, x: Party, y: Party, f: set<Req>, g: set<Req>, acks: set<Ack>)
    requires p < |s.parties|
    ensures SetParty(SetParty(s, p, x).(flight := f), p, y).(flight := g, acks := acks)
         == SetParty(s, p, y).(flight := g, acks := acks)
  {
    assert SetParty(SetParty(s, p, x).(flight := f), p, y).parties == SetParty(s, p, y).parties;
  }

  /** Party p takes up one message in flight and two forged ones, which close its batch. */
  lemma CloseBatch(c: Config, s: State, p: nat, req: Req, f: Req, g: Req, order: seq<Msg>) returns (t: State)
    requires Reachable(c, s) && Listens(c, s, p) && |s.parties[p].heap| + 3 == c.n
    requires req in s.flight && req.to == p
    requires Forgeable(c, f) && f.to == p && Forgeable(c, g) && g.to == p
    requires Drains(s.parties[p].heap + [Received(req)] + [Received(f)] + [Received(g)], order) && Awaited(order).Some?
    ensures Reachable(c, t)
    ensures var (x, d) := (s.parties[p], c.hash(HashInput(order)));
      t == SetParty(s, p, x.(phase := Waiting(Awaited(order).value, d), heap := [], log := x.log + [order]))
           .(flight := s.flight - {req} - {f} - {g}, acks := s.acks + AckAll(Acks(order), d))
  {
    var u := HearTwo(c, s, p, req, f);
    t := HearLast(c, u, p, g, order);
    Overwrite(s, p, u.parties[p], t.parties[p], u.flight, t.flight, t.acks);
  }

  lemma FourListed<T>(a: T, b: T, c: T, d: T)
    ensures [a] + [b] + [c] + [d] == [a, b, c, d]
  {
  }

  lemma CloseOwn(c: Config, s: State, p: nat, own: Msg, req: Req, f: Req, g: Req, order: seq<Msg>) returns (t: State)
    requires c.n == 4 && Reachable(c, s) && Listens(c, s, p) && s.parties[p].heap == [own]
    requires req in s.flight && req.to == p
    requires Forgeable(c, f) && f.to == p && Forgeable(c, g) && g.to == p
    requires Drains([own, Received(req), Received(f), Received(g)], order) && Awaited(order).Some?
    ensures Reachable(c, t) && |t.parties| == 4 && t.open == s.open && t.chan == s.chan
    ensures t.flight == s.flight - {req} - {f} - {g}
    ensures t.acks == s.acks + AckAll(Acks(order), c.hash(HashInput(order)))
    ensures t.parties[p].phase == Waiting(Awaited(order).value, c.hash(HashInput(order)))
    ensures t.parties[p].log == s.parties[p].log + [order]
    ensures forall q :: 0 <= q < 4 && q != p ==> t.parties[q] == s.parties[q]
  {
    FourListed(own, Received(req), Received(f), Received(g));
    t := CloseBatch(c, s, p, req, f, g, order);
  }

  /** A party outside the gadget acknowledges with whatever hash suits it. */
  lemma Pretend(c: Config, s: State, req: Req, digest: Bytes) returns (t: State)
    requires Reachable(c, s) && |s.parties| == c.n && req in s.open && req.to !in c.honest
    ensures Reachable(c, t)
    ensures t == Settle(s, req, Ok((req.to, digest))).(acks := s.acks + {Ack(req, digest)})
  {
    var t1 := Move(c, s, Lie(Ack(req, digest)));
    t := Move(c, t1, Respond(Ack(req, digest)));
  }

  // ---------- the run ----------

  /** Parties 0 and 1 follow the gadget; 2 and 3 move one byte from one's payload to
      the other's on their links to party 1. */
  const U0: seq<Bytes> := [[0], [0], [0], [0]]
  const U1: seq<Bytes> := [[1], [1], [1], [1]]
  const ZERO_TO_1: Req := Req(0, 1, 0, [0])
  const ONE_TO_0: Req := Req(1, 0, 0, [1])
  const TWO_TO_0: Req := Req(2, 0, 0, [8, 9])
  const TWO_TO_1: Req := Req(2, 1, 0, [9])
  const THREE_TO_0: Req := Req(3, 0, 0, [7])
  const THREE_TO_1: Req := Req(3, 1, 0, [7, 8])

  function Batch0(): seq<Msg> {
    [Received(THREE_TO_0), Received(TWO_TO_0), Received(ONE_TO_0), Own(0, 0, [0])]
  }

  function Batch1(): seq<Msg> {
    [Received(THREE_TO_1), Received(TWO_TO_1), Own(1, 0, [1]), Received(ZERO_TO_1)]
  }

  lemma ConcatFour(a: Bytes, b: Bytes, c: Bytes, d: Bytes)
    ensures Concat([a, b, c, d]) == a + b + c + d
  {
    assert [a, b, c, d][1..] == [b, c, d] && [b, c, d][1..] == [c, d] && [c, d][1..] == [d] && [d][1..] == [];
    assert Concat([d]) == d + Concat([]) == d;
    assert Concat([c, d]) == c + Concat([d]);
    assert Concat([b, c, d]) == b + Concat([c, d]);
    assert Concat([a, b, c, d]) == a + Concat([b, c, d]);
  }

  lemma Collide()
    ensures HashInput(Batch0()) == HashInput(Batch1()) == [7, 8, 9, 1, 0]
  {
    assert Payloads(Batch0()) == [[7], [8, 9], [1], [0]];
    assert Payloads(Batch1()) == [[7, 8], [9], [1], [0]];
    ConcatFour([7], [8, 9], [1], [0]);
    ConcatFour([7, 8], [9], [1], [0]);
  }

  lemma Full0()
    ensures FullBatch(Batch0(), 4)
  {
  }

  lemma Full1()
    ensures FullBatch(Batch1(), 4)
  {
  }

  lemma Differ()
    ensures !SameVector(Batch1(), Batch0())
  {
    assert Batch1()[0].payload != Batch0()[0].payload;
  }

  lemma BothOwn()
    ensures Awaited(Batch0()) == Some(0) && Awaited(Batch1()) == Some(0)
  {
    var b := Batch1()[..3];
    assert b[2] == Own(1, 0, [1]) && Awaited(b) == Some(0);
  }

  lemma ZeroAcknowledged()
    ensures ZERO_TO_1 in Acks(Batch1()) && Holds(Batch1(), ZERO_TO_1)
  {
    AcksMembers(Batch1(), ZERO_TO_1);
    assert Batch1()[3] in Batch1() && Batch1()[3].response == Incoming(ZERO_TO_1);
  }

  ghost function Is<T>(a: T, x: T): nat {
    if a == x then 1 else 0
  }

  lemma FourCount<T>(a: T, b: T, c: T, d: T, x: T)
    ensures multiset([a, b, c, d])[x] == Is(a, x) + Is(b, x) + Is(c, x) + Is(d, x)
  {
    assert multiset([a, b, c, d]) == multiset{a, b, c, d};
  }

  lemma FourReversed<T>(a: T, b: T, c: T, d: T)
    ensures multiset([a, b, c, d]) == multiset([d, c, b, a])
  {
    forall x ensures multiset([a, b, c, d])[x] == multiset([d, c, b, a])[x] {
      FourCount(a, b, c, d, x);
      FourCount(d, c, b, a, x);
    }
  }

  lemma FourTurned<T>(a: T, b: T, c: T, d: T)
    ensures multiset([a, b, c, d]) == multiset([d, c, a, b])
  {
    forall x ensures multiset([a, b, c, d])[x] == multiset([d, c, a, b])[x] {
      FourCount(a, b, c, d, x);
      FourCount(d, c, a, b, x);
    }
  }

  lemma BothDrain()
    ensures Drains([Own(0, 0, [0]), Received(ONE_TO_0), Received(TWO_TO_0), Received(THREE_TO_0)], Batch0())
    ensures Drains([Own(1, 0, [1]), Received(ZERO_TO_1), Received(TWO_TO_1), Received(THREE_TO_1)], Batch1())
  {
    FourReversed(Own(0, 0, [0]), Received(ONE_TO_0), Received(TWO_TO_0), Received(THREE_TO_0));
    FourTurned(Own(1, 0, [1]), Received(ZERO_TO_1), Received(TWO_TO_1), Received(THREE_TO_1));
    Full0();
    Full1();
  }

  /** All that the run needs to know of the two batches. */
  ghost predicate Colliding(a: seq<Msg>, b: seq<Msg>) {
    && Drains([Own(0, 0, [0]), Received(ONE_TO_0), Received(TWO_TO_0), Received(THREE_TO_0)], a)
    && Drains([Own(1, 0, [1]), Received(ZERO_TO_1), Received(TWO_TO_1), Received(THREE_TO_1)], b)
    && Awaited(a) == Some(0) && Awaited(b) == Some(0)
    && HashInput(a) == HashInput(b)
    && ZERO_TO_1 in Acks(b)
  }

  lemma TheyCollide() returns (a: seq<Msg>, b: seq<Msg>)
    ensures Colliding(a, b)
    ensures FullBatch(a, 4) && FullBatch(b, 4)
    ensures Holds(b, ZERO_TO_1) && !SameVector(b, a)
  {
    a, b := Batch0(), Batch1();
    BothDrain();
    BothOwn();
    Collide();
    ZeroAcknowledged();
    Full0();
    Full1();
    Differ();
  }

  function Config4(hash: Bytes -> Bytes): Config {
    Config(4, {0, 1}, hash)
  }

  /** Party 0 has its own broadcast out and in its heap, party 1 too. */
  lemma BothBroadcast(c: Config) returns (s: State)
    requires c == Config4(c.hash)
    ensures Reachable(c, s) && |s.parties| == 4
    ensures s.parties[0] == Party(0, [U0], Collecting, [Own(0, 0, [0])], [], [])
    ensures s.parties[1] == Party(0, [U1], Collecting, [Own(1, 0, [1])], [], [])
    ensures ZERO_TO_1 in s.flight && ONE_TO_0 in s.flight
    ensures ZERO_TO_1 in s.open && Req(0, 2, 0, [0]) in s.open && Req(0, 3, 0, [0]) in s.open
    ensures s.chan == map[]
  {
    Start(c, Anything);
    var s1 := Broadcast(c, Init(c), 0, U0);
    s := Broadcast(c, s1, 1, U1);
  }

  lemma ZeroStays(flight: set<Req>)
    requires ZERO_TO_1 in flight
    ensures ZERO_TO_1 in flight - {ONE_TO_0} - {TWO_TO_0} - {THREE_TO_0}
  {
    assert ZERO_TO_1.from != ONE_TO_0.from && ZERO_TO_1.from != TWO_TO_0.from && ZERO_TO_1.from != THREE_TO_0.from;
  }

  /** Party 0 closes its batch: party 1's broadcast and the two forged ones. */
  lemma CloseAt0(c: Config, s: State, a: seq<Msg>) returns (t: State)
    requires c == Config4(c.hash) && Reachable(c, s) && |s.parties| == 4
    requires Drains([Own(0, 0, [0]), Received(ONE_TO_0), Received(TWO_TO_0), Received(THREE_TO_0)], a)
    requires Awaited(a) == Some(0)
    requires Listens(c, s, 0) && s.parties[0].heap == [Own(0, 0, [0])] && s.parties[0].log == []
    requires ZERO_TO_1 in s.flight && ONE_TO_0 in s.flight
    ensures Reachable(c, t) && |t.parties| == 4 && t.open == s.open && t.chan == s.chan && ZERO_TO_1 in t.flight
    ensures t.parties[0].phase == Waiting(0, c.hash(HashInput(a))) && t.parties[0].log == [a]
    ensures t.parties[1] == s.parties[1]
  {
    ZeroStays(s.flight);
    t := CloseOwn(c, s, 0, Own(0, 0, [0]), ONE_TO_0, TWO_TO_0, THREE_TO_0, a);
  }

  /** So does party 1, with party 0's broadcast. */
  lemma CloseAt1(c: Config, s: State, b: seq<Msg>) returns (t: State)
    requires c == Config4(c.hash) && Reachable(c, s) && |s.parties| == 4
    requires Drains([Own(1, 0, [1]), Received(ZERO_TO_1), Received(TWO_TO_1), Received(THREE_TO_1)], b)
    requires Awaited(b).Some? && ZERO_TO_1 in Acks(b)
    requires Listens(c, s, 1) && s.parties[1].heap == [Own(1, 0, [1])] && s.parties[1].log == []
    requires ZERO_TO_1 in s.flight
    ensures Reachable(c, t) && |t.parties| == 4 && t.open == s.open && t.chan == s.chan
    ensures t.parties[0] == s.parties[0] && t.parties[1].log == [b]
    ensures Ack(ZERO_TO_1, c.hash(HashInput(b))) in t.acks
  {
    t := CloseOwn(c, s, 1, Own(1, 0, [1]), ZERO_TO_1, TWO_TO_1, THREE_TO_1, b);
  }

  /** Party 1 acknowledges with the hash of its own batch, the others with party 0's. */
  lemma AllAcknowledge(c: Config, s: State, d: Bytes) returns (t: State)
    requires c == Config4(c.hash) && Reachable(c, s) && |s.parties| == 4 && s.chan == map[]
    requires Ack(ZERO_TO_1, d) in s.acks
    requires ZERO_TO_1 in s.open && Req(0, 2, 0, [0]) in s.open && Req(0, 3, 0, [0]) in s.open
    ensures Reachable(c, t) && t.parties == s.parties
    ensures Outcomes(t, 0, 0) == [Ok((1, d)), Ok((2, d)), Ok((3, d))]
  {
    var s1 := Move(c, s, Respond(Ack(ZERO_TO_1, d)));
    var s2 := Pretend(c, s1, Req(0, 2, 0, [0]), d);
    t := Pretend(c, s2, Req(0, 3, 0, [0]), d);
  }

  lemma EndsWell(c: Config, s: State, d: Bytes)
    requires c == Config4(c.hash) && |s.parties| == 4
    requires s.parties[0].phase == Waiting(0, d) && Outcomes(s, 0, 0) == [Ok((1, d)), Ok((2, d)), Ok((3, d))]
    ensures Enabled(c, s, Finish(0)) && Apply(c, s, Finish(0)).parties[0].phase.Collecting?
  {
    assert Outcomes(s, 0, 0)[..3] == Outcomes(s, 0, 0);
  }

  lemma BeforeTheEnd(c: Config, a: seq<Msg>, b: seq<Msg>) returns (s: State)
    requires c == Config4(c.hash) && Colliding(a, b)
    ensures Reachable(c, s) && |s.parties| == 4 && Enabled(c, s, Finish(0))
    ensures s.parties[0].log == [a] && s.parties[1].log == [b]
    ensures Apply(c, s, Finish(0)).parties[0].phase.Collecting?
  {
    var d := c.hash(HashInput(a));
    s := BothBroadcast(c);
    s := CloseAt0(c, s, a);
    s := CloseAt1(c, s, b);
    s := AllAcknowledge(c, s, d);
    EndsWell(c, s, d);
  }

  /** The run ends with a good round of party 0; 0 and 1 have hashed these batches. */
  ghost predicate EndsWith(c: Config, states: seq<State>, steps: seq<Step>, x: seq<Msg>, y: seq<Msg>) {
    && Run(c, states, steps) && |steps| > 0 && c.n >= 2
    && var k := |steps| - 1;
       && steps[k] == Finish(0) && states[k + 1].parties[0].phase.Collecting?
       && states[k].parties[0].log == [x] && states[k].parties[1].log == [y]
  }

  lemma TheEnd(c: Config, a: seq<Msg>, b: seq<Msg>) returns (states: seq<State>, steps: seq<Step>)
    requires c == Config4(c.hash) && Colliding(a, b)
    ensures EndsWith(c, states, steps, a, b)
  {
    var s := BeforeTheEnd(c, a, b);
    var before: seq<State>, done: seq<Step> :| RunOf(c, before, done, Anything) && before[|done|] == s;
    RunOnce(c, before, done, Finish(0));
    states, steps := before + [Apply(c, s, Finish(0))], done + [Finish(0)];
    assert states[|done|] == s;
  }

  lemma RunToCollision(c: Config) returns (states: seq<State>, steps: seq<Step>, x: seq<Msg>, y: seq<Msg>)
    requires c == Config4(c.hash)
    ensures EndsWith(c, states, steps, x, y) && HashInput(x) == HashInput(y)
    ensures FullBatch(x, 4) && FullBatch(y, 4) && Holds(y, ZERO_TO_1) && !SameVector(y, x)
  {
    x, y := TheyCollide();
    states, steps := TheEnd(c, x, y);
  }

  /** Agreement is on the concatenation only. Whatever the hash, there is a run in
      which party 0's round ends well, party 1 follows the gadget and acknowledged
      the broadcast, both hashed one message from each sender, and the two batches
      differ in the payloads of two senders outside the gadget. */
  lemma CollidingRun(hash: Bytes -> Bytes)
    returns (c: Config, states: seq<State>, steps: seq<Step>, x: seq<Msg>, y: seq<Msg>)
    ensures GoodConfig(c) && c.hash == hash && 0 in c.honest && 1 in c.honest
    ensures EndsWith(c, states, steps, x, y)
    ensures FullBatch(x, c.n) && FullBatch(y, c.n)
    ensures Holds(y, ZERO_TO_1) && HashInput(x) == HashInput(y) && !SameVector(y, x)
  {
    c := Config4(hash);
    states, steps, x, y := RunToCollision(c);
  }
}
