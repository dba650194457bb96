/** Echo rounds when every party follows the gadget, submits its next broadcast only
    after its own round counter has caught up, and broadcasts for no other session
    meanwhile. Link payloads may still differ, requests may fail, messages may be
    lost, and parties that have ended may greet what comes late. */
module EchoRounds {
  import opened Basics
  import opened Echo
  import opened EchoNetwork

  /** The next broadcast waits for the round before it. The code does not enforce
      this; it is a promise of the agent. */
  ghost predicate Paced(s: State, a: Step) {
    a.Submit? && a.p < |s.parties| ==> |s.parties[a.p].subs| <= s.parties[a.p].r
  }

  /** Nor does the code keep a party that has ended early from proposing anew; a
      running party takes the proposal for a message of its own session. */
  ghost predicate Gated(s: State, a: Step) {
    Paced(s, a) && !a.Intrude?
  }

  ghost predicate Everyone(c: Config) {
    GoodConfig(c) && forall p: nat :: p < c.n ==> p in c.honest
  }

  ghost predicate AllFollow(c: Config) {
    Everyone(c) && NeverEmpty(c.hash)
  }

  ghost predicate GatedRun(c: Config, states: seq<State>, steps: seq<Step>) {
    && AllFollow(c)
    && Run(c, states, steps)
    && forall i :: 0 <= i < |steps| ==> Gated(states[i], steps[i])
  }

  function Pool(x: Party): seq<Msg> {
    x.heap + x.queue
  }

  /** Message m at party q is a genuine message of round j. */
  ghost predicate Genuine(c: Config, s: State, q: nat, m: Msg, j: nat)
    requires |s.parties| == c.n && q < c.n
  {
    match m.response
    case Incoming(req) => OnLink(c, s, req) && req.to == q && req.k == j && m == Received(req) && req !in s.flight
    case Outgoing(k) =>
      var subs := s.parties[q].subs;
      k == j && k < |subs| && |subs[k]| == c.n && m == Own(q, k, subs[k][q])
  }

  ghost predicate InStep(c: Config, x: Party) {
    && x.r <= |x.log| <= x.r + 1
    && x.r <= |x.subs| <= x.r + 1
    && !x.phase.Crashed?
    && (x.phase.Collecting? ==> |x.log| == x.r)
    && (x.phase.Waiting? ==> x.phase.k == x.r && |x.log| == |x.subs| == x.r + 1 && x.heap == [])
    && (forall k :: 0 <= k < |x.subs| ==> |x.subs[k]| == c.n)
  }

  /** Everything a party has yet to hash belongs to the round it is in, one message a sender. */
  ghost predicate PoolInStep(c: Config, s: State, q: nat)
    requires |s.parties| == c.n && q < c.n
  {
    var x := s.parties[q];
    && OnePerSender(Pool(x))
    && (forall m :: m in Pool(x) ==> Genuine(c, s, q, m, |x.log|))
  }

  /** Batch j is exactly round j. */
  ghost predicate LogInStep(c: Config, s: State, q: nat)
    requires |s.parties| == c.n && q < c.n
  {
    var log := s.parties[q].log;
    forall j :: 0 <= j < |log| ==> FullBatch(log[j], c.n) && forall m :: m in log[j] ==> Genuine(c, s, q, m, j)
  }

  ghost predicate RoundsInStep(c: Config, s: State)
    requires |s.parties| == c.n
  {
    forall p, q :: 0 <= p < c.n && 0 <= q < c.n ==> s.parties[p].r <= |s.parties[q].log|
  }

  ghost predicate Lockstep(c: Config, s: State) {
    && Sound(c, s)
    && (forall q: nat :: q < c.n ==> InStep(c, s.parties[q]) && PoolInStep(c, s, q) && LogInStep(c, s, q))
    && (forall req :: req in s.flight ==> OnLink(c, s, req))
    && RoundsInStep(c, s)
  }

  // ---------- consequences ----------

  ghost predicate HasSender(pool: seq<Msg>, x: nat) {
    exists m :: m in pool && m.sender == x
  }

  /** A pool holds at most one message per sender, so at most n. */
  lemma PoolSize(c: Config, s: State, q: nat)
    requires Lockstep(c, s) && q < c.n
    ensures |Pool(s.parties[q])| <= c.n
    ensures |Pool(s.parties[q])| == c.n ==> forall x: nat :: 1 <= x <= c.n ==> HasSender(Pool(s.parties[q]), x)
  {
    var pool := Pool(s.parties[q]);
    assert PoolInStep(c, s, q);
    forall m | m in pool ensures 1 <= m.sender <= c.n {
      assert Genuine(c, s, q, m, |s.parties[q].log|);
    }
    SendersCount(pool, c.n);
  }

  lemma SendersCount(pool: seq<Msg>, n: nat)
    requires OnePerSender(pool) && forall m :: m in pool ==> 1 <= m.sender <= n
    ensures |pool| <= n
    ensures |pool| == n ==> forall x: nat :: 1 <= x <= n ==> HasSender(pool, x)
  {
    assert forall i :: 0 <= i < |pool| ==> pool[i] in pool;
    var origins: seq<nat> :=
      seq(|pool|, i requires 0 <= i < |pool| => (var m := pool[i]; assert m in pool; m.sender - 1));
    Pigeonhole(origins, n);
    if |pool| == n {
      forall x: nat | 1 <= x <= n ensures HasSender(pool, x) {
        assert x - 1 in origins;
        var i :| 0 <= i < n && origins[i] == x - 1;
        assert pool[i] in pool && pool[i].sender == x;
      }
    }
  }

  /** A pool without a message from sender p + 1 has room for one more. */
  lemma PoolRoom(c: Config, s: State, q: nat, p: nat)
    requires Lockstep(c, s) && q < c.n && p < c.n
    requires forall m :: m in Pool(s.parties[q]) ==> m.sender != p + 1
    ensures |Pool(s.parties[q])| < c.n
  {
    PoolSize(c, s, q);
    assert !HasSender(Pool(s.parties[q]), p + 1);
  }

  /** A batch of round j holds party p's broadcast j as it was sent to q. */
  lemma BatchHolds(c: Config, s: State, q: nat, j: nat, p: nat)
    requires Lockstep(c, s) && q < c.n && p < c.n && j < |s.parties[q].log|
    ensures j < |s.parties[p].subs| && |s.parties[p].subs[j]| == c.n
    ensures var m := s.parties[q].log[j][c.n - 1 - p];
      && m.sender == p + 1
      && m.payload == s.parties[p].subs[j][q]
      && Genuine(c, s, q, m, j)
      && (p != q ==> m.response == Incoming(Req(p, q, j, s.parties[p].subs[j][q])))
  {
    var log := s.parties[q].log;
    assert LogInStep(c, s, q);
    FullBatchOrder(log[j], c.n);
    var m := log[j][c.n - 1 - p];
    assert m in log[j];
  }

  // ---------- preservation ----------

  lemma InitLockstep(c: Config)
    requires AllFollow(c)
    ensures Lockstep(c, Init(c))
  {
    InitSound(c);
  }

  ghost predicate SubsGrow(c: Config, s: State, t: State) {
    && |s.parties| == |t.parties| == c.n
    && (forall p :: 0 <= p < c.n ==> s.parties[p].subs <= t.parties[p].subs)
    && (forall req :: req in t.flight && req !in s.flight ==> req.from < c.n && req.k >= |s.parties[req.from].subs|)
  }

  lemma GenuineGrows(c: Config, s: State, t: State, q: nat, m: Msg, j: nat)
    requires SubsGrow(c, s, t) && q < c.n && Genuine(c, s, q, m, j)
    ensures Genuine(c, t, q, m, j)
  {
  }

  lemma LogGrows(c: Config, s: State, t: State, q: nat)
    requires SubsGrow(c, s, t) && q < c.n && LogInStep(c, s, q) && t.parties[q].log == s.parties[q].log
    ensures LogInStep(c, t, q)
  {
    var log := s.parties[q].log;
    forall j, m | 0 <= j < |log| && m in log[j] ensures Genuine(c, t, q, m, j) {
      GenuineGrows(c, s, t, q, m, j);
    }
  }

  lemma PoolGrows(c: Config, s: State, t: State, q: nat)
    requires SubsGrow(c, s, t) && q < c.n && PoolInStep(c, s, q)
    requires t.parties[q].log == s.parties[q].log && Pool(t.parties[q]) == Pool(s.parties[q])
    ensures PoolInStep(c, t, q)
  {
    forall m | m in Pool(t.parties[q]) ensures Genuine(c, t, q, m, |t.parties[q].log|) {
      GenuineGrows(c, s, t, q, m, |s.parties[q].log|);
    }
  }

  /** One more message of the round, from a sender not yet heard, keeps a pool in step. */
  lemma PoolAdds(c: Config, s: State, t: State, q: nat, m: Msg)
    requires SubsGrow(c, s, t) && q < c.n && PoolInStep(c, s, q)
    requires t.parties[q].log == s.parties[q].log && Pool(t.parties[q]) == Pool(s.parties[q]) + [m]
    requires forall x :: x in Pool(s.parties[q]) ==> x.sender != m.sender
    requires Genuine(c, t, q, m, |s.parties[q].log|)
    ensures PoolInStep(c, t, q)
  {
    var pool := Pool(s.parties[q]);
    forall x | x in pool ensures Genuine(c, t, q, x, |s.parties[q].log|) {
      GenuineGrows(c, s, t, q, x, |s.parties[q].log|);
    }
    assert forall i :: 0 <= i < |pool| ==> pool[i] in pool;
  }

  /** A step of one party that adds nothing to any log keeps the others in step. */
  lemma OthersInStep(c: Config, s: State, t: State, p: nat)
    requires Lockstep(c, s) && SubsGrow(c, s, t) && Sound(c, t) && p < c.n
    requires forall q :: 0 <= q < c.n && q != p ==> t.parties[q] == s.parties[q]
    requires t.parties[p].log == s.parties[p].log
    requires InStep(c, t.parties[p]) && PoolInStep(c, t, p)
    requires forall req :: req in t.flight && req !in s.flight ==> OnLink(c, t, req)
    requires t.parties[p].r == s.parties[p].r
    ensures Lockstep(c, t)
  {
    forall q: nat | q < c.n ensures InStep(c, t.parties[q]) && PoolInStep(c, t, q) && LogInStep(c, t, q) {
      LogGrows(c, s, t, q);
      if q != p {
        PoolGrows(c, s, t, q);
      }
    }
  }

  /** Before its next broadcast a party has none of its own left to hash, and room for one. */
  lemma RoomForOwn(c: Config, s: State, p: nat)
    requires Lockstep(c, s) && p < c.n && |s.parties[p].subs| <= s.parties[p].r
    ensures forall m :: m in Pool(s.parties[p]) ==> m.sender != p + 1
    ensures |Pool(s.parties[p])| < c.n
    ensures !s.parties[p].phase.Waiting? && |s.parties[p].subs| == s.parties[p].r
  {
    var x := s.parties[p];
    assert InStep(c, x) && PoolInStep(c, s, p);
    forall m | m in Pool(x) ensures m.sender != p + 1 {
      assert Genuine(c, s, p, m, |x.log|);
    }
    PoolRoom(c, s, p, p);
  }

  lemma SubmitLockstep(c: Config, s: State, p: nat, payloads: seq<Bytes>)
    requires AllFollow(c) && Lockstep(c, s) && Enabled(c, s, Submit(p, payloads)) && Gated(s, Submit(p, payloads))
    ensures Lockstep(c, Apply(c, s, Submit(p, payloads)))
  {
    var x := s.parties[p];
    RoomForOwn(c, s, p);
    var t := Apply(c, s, Submit(p, payloads));
    StepSound(c, s, Submit(p, payloads));
    SubmitGrows(c, s, t, p, payloads);
    assert InStep(c, x);
    assert Pool(t.parties[p]) == Pool(x) + [Own(p, |x.subs|, payloads[p])];
    PoolAdds(c, s, t, p, Own(p, |x.subs|, payloads[p]));
    OthersInStep(c, s, t, p);
  }

  lemma SubmitGrows(c: Config, s: State, t: State, p: nat, payloads: seq<Bytes>)
    requires |s.parties| == |t.parties| == c.n && p < c.n && |payloads| == c.n
    requires t.flight == s.flight + Links(c.n, p, |s.parties[p].subs|, payloads)
    requires t.parties[p].subs == s.parties[p].subs + [payloads]
    requires forall q :: 0 <= q < c.n && q != p ==> t.parties[q] == s.parties[q]
    ensures SubsGrow(c, s, t)
    ensures forall req :: req in t.flight && req !in s.flight ==> OnLink(c, t, req)
  {
  }

  /** A message in flight belongs to the round its target is in. */
  lemma FlightInStep(c: Config, s: State, req: Req)
    requires Lockstep(c, s) && req in s.flight
    ensures req.to < c.n && req.k == |s.parties[req.to].log|
  {
    var q := req.to;
    assert OnLink(c, s, req);
    assert InStep(c, s.parties[req.from]);
    if req.k < |s.parties[q].log| {
      BatchHolds(c, s, q, req.k, req.from);
    }
  }

  /** A message in flight finds room, and none from its sender. */
  lemma RoomForArrival(c: Config, s: State, req: Req)
    requires Lockstep(c, s) && req in s.flight
    ensures req.from < c.n && req.to < c.n
    ensures forall m :: m in Pool(s.parties[req.to]) ==> m.sender != req.from + 1
    ensures |Pool(s.parties[req.to])| < c.n
  {
    var x := s.parties[req.to];
    assert PoolInStep(c, s, req.to) && OnLink(c, s, req);
    FlightInStep(c, s, req);
    forall m | m in Pool(x) ensures m.sender != req.from + 1 {
      assert Genuine(c, s, req.to, m, |x.log|);
    }
    PoolRoom(c, s, req.to, req.from);
  }

  lemma DeliverLockstep(c: Config, s: State, req: Req)
    requires AllFollow(c) && Lockstep(c, s) && Enabled(c, s, Deliver(req))
    ensures Lockstep(c, Apply(c, s, Deliver(req)))
  {
    var x := s.parties[req.to];
    RoomForArrival(c, s, req);
    FlightInStep(c, s, req);
    var t := Apply(c, s, Deliver(req));
    StepSound(c, s, Deliver(req));
    assert InStep(c, x) && OnLink(c, s, req);
    assert Pool(t.parties[req.to]) == Pool(x) + [Received(req)];
    PoolAdds(c, s, t, req.to, Received(req));
    OthersInStep(c, s, t, req.to);
  }

  /** A full heap holds every sender exactly once, the party itself among them,
      and leaves nothing queued behind it. */
  lemma FullHeap(c: Config, s: State, p: nat, order: seq<Msg>)
    requires AllFollow(c) && Lockstep(c, s) && Enabled(c, s, Take(p, order))
    requires |s.parties[p].heap| + 1 == c.n
    ensures FullBatch(order, c.n)
    ensures Awaited(order) == Some(s.parties[p].r)
    ensures s.parties[p].queue[1..] == []
    ensures forall m :: m in order ==> Genuine(c, s, p, m, s.parties[p].r)
    ensures |s.parties[p].subs| == s.parties[p].r + 1
  {
    var x := s.parties[p];
    var heap := x.heap + [x.queue[0]];
    assert InStep(c, x) && PoolInStep(c, s, p);
    PoolSize(c, s, p);
    assert Pool(x) == heap + x.queue[1..];
    assert Pool(x) == heap;
    DrainKeeps(heap, order);
    DrainKeepsSenders(heap, order);
    forall i | 0 <= i < |order| ensures 1 <= order[i].sender <= c.n {
      assert order[i] in order;
      assert Genuine(c, s, p, order[i], x.r);
    }
    assert HasSender(Pool(x), p + 1);
    var own :| own in Pool(x) && own.sender == p + 1;
    assert own in order && Genuine(c, s, p, own, x.r);
    AwaitedMember(order);
    if Awaited(order).Some? {
      var m :| m in order && m.response == Outgoing(Awaited(order).value);
      assert Genuine(c, s, p, m, x.r);
    }
  }

  lemma TakeOneLockstep(c: Config, s: State, p: nat, order: seq<Msg>)
    requires AllFollow(c) && Lockstep(c, s) && Enabled(c, s, Take(p, order)) && |s.parties[p].heap| + 1 < c.n
    ensures Lockstep(c, Apply(c, s, Take(p, order)))
  {
    var t := Apply(c, s, Take(p, order));
    assert InStep(c, s.parties[p]);
    StepSound(c, s, Take(p, order));
    assert Pool(t.parties[p]) == Pool(s.parties[p]);
    PoolGrows(c, s, t, p);
    OthersInStep(c, s, t, p);
  }

  /** Party p in round r has hashed a full batch and waits for its answers. */
  ghost predicate ClosedBy(c: Config, s: State, t: State, p: nat, order: seq<Msg>)
    requires |s.parties| == c.n && p < c.n
  {
    && |t.parties| == c.n && t.flight == s.flight
    && (forall q :: 0 <= q < c.n && q != p ==> t.parties[q] == s.parties[q])
    && var x := s.parties[p];
       t.parties[p] == Party(x.r, x.subs, Waiting(x.r, c.hash(HashInput(order))), [], [], x.log + [order])
  }

  lemma Closing(c: Config, s: State, p: nat, order: seq<Msg>)
    requires AllFollow(c) && Lockstep(c, s) && Enabled(c, s, Take(p, order)) && |s.parties[p].heap| + 1 == c.n
    ensures ClosedBy(c, s, Apply(c, s, Take(p, order)), p, order)
  {
    FullHeap(c, s, p, order);
  }

  lemma ClosedInStep(c: Config, s: State, t: State, p: nat, order: seq<Msg>)
    requires Lockstep(c, s) && p < c.n && s.parties[p].phase.Collecting? && |s.parties[p].subs| == s.parties[p].r + 1
    requires ClosedBy(c, s, t, p, order)
    requires FullBatch(order, c.n) && forall m :: m in order ==> Genuine(c, s, p, m, s.parties[p].r)
    ensures forall q: nat :: q < c.n ==> InStep(c, t.parties[q]) && PoolInStep(c, t, q) && LogInStep(c, t, q)
  {
    forall q: nat | q < c.n ensures InStep(c, t.parties[q]) && PoolInStep(c, t, q) && LogInStep(c, t, q) {
      if q != p {
        LogGrows(c, s, t, q);
        PoolGrows(c, s, t, q);
      } else {
        assert InStep(c, s.parties[p]);
        assert Pool(t.parties[p]) == [];
        ClosedLog(c, s, t, p, order);
      }
    }
  }

  /** Closing a batch leaves what is in flight and no party behind. */
  lemma ClosedElsewhere(c: Config, s: State, t: State, p: nat, order: seq<Msg>)
    requires Lockstep(c, s) && p < c.n && ClosedBy(c, s, t, p, order)
    ensures forall req :: req in t.flight ==> OnLink(c, t, req)
    ensures RoundsInStep(c, t)
  {
    forall req | req in t.flight ensures OnLink(c, t, req) {
      assert OnLink(c, s, req);
    }
  }

  lemma TakeLastLockstep(c: Config, s: State, p: nat, order: seq<Msg>)
    requires AllFollow(c) && Lockstep(c, s) && Enabled(c, s, Take(p, order)) && |s.parties[p].heap| + 1 == c.n
    ensures Lockstep(c, Apply(c, s, Take(p, order)))
  {
    var t := Apply(c, s, Take(p, order));
    StepSound(c, s, Take(p, order));
    FullHeap(c, s, p, order);
    Closing(c, s, p, order);
    ClosedInStep(c, s, t, p, order);
    ClosedElsewhere(c, s, t, p, order);
  }

  lemma TakeLockstep(c: Config, s: State, p: nat, order: seq<Msg>)
    requires AllFollow(c) && Lockstep(c, s) && Enabled(c, s, Take(p, order))
    ensures Lockstep(c, Apply(c, s, Take(p, order)))
  {
    PoolSize(c, s, p);
    if |s.parties[p].heap| + 1 < c.n {
      TakeOneLockstep(c, s, p, order);
    } else {
      TakeLastLockstep(c, s, p, order);
    }
  }

  lemma ClosedLog(c: Config, s: State, t: State, p: nat, order: seq<Msg>)
    requires SubsGrow(c, s, t) && p < c.n && LogInStep(c, s, p)
    requires t.parties[p].log == s.parties[p].log + [order]
    requires FullBatch(order, c.n) && forall m :: m in order ==> Genuine(c, s, p, m, |s.parties[p].log|)
    ensures LogInStep(c, t, p)
  {
    var log := t.parties[p].log;
    forall j, m | 0 <= j < |log| && m in log[j] ensures Genuine(c, t, p, m, j) {
      GenuineGrows(c, s, t, p, m, j);
    }
  }

  /** A request for an acknowledgement of broadcast k sits in the batch of round k. */
  lemma HeldRound(c: Config, s: State, req: Req, j: nat)
    requires Lockstep(c, s) && req.to < c.n
    requires j < |s.parties[req.to].log| && Holds(s.parties[req.to].log[j], req)
    ensures j == req.k
  {
    assert LogInStep(c, s, req.to);
    var m: Msg :| m in s.parties[req.to].log[j] && m.response == Incoming(req);
    assert Genuine(c, s, req.to, m, j);
  }

  /** An acknowledgement of broadcast k comes from the batch of round k. */
  lemma JustifiedRound(c: Config, s: State, req: Req, digest: Bytes)
    requires Lockstep(c, s) && Justified(c, s, req, digest)
    ensures req.k < |s.parties[req.to].log| && digest == c.hash(HashInput(s.parties[req.to].log[req.k]))
  {
    var log := s.parties[req.to].log;
    var j :| 0 <= j < |log| && Holds(log[j], req) && digest == c.hash(HashInput(log[j]));
    HeldRound(c, s, req, j);
  }

  lemma AnsweredRound(c: Config, s: State, p: nat, k: nat, q: nat, digest: Bytes)
    requires AllFollow(c) && Lockstep(c, s) && q < c.n && Answered(c, s, p, k, q, digest) && digest != []
    ensures k < |s.parties[q].log| && digest == c.hash(HashInput(s.parties[q].log[k]))
  {
    JustifiedRound(c, s, LinkReq(s, p, k, q), digest);
  }

  /** A round that ends well was acknowledged by everyone, so everyone has hashed it. */
  lemma FinishedByAll(c: Config, s: State, p: nat, q: nat)
    requires AllFollow(c) && Lockstep(c, s) && Enabled(c, s, Finish(p)) && q < c.n
    requires Apply(c, s, Finish(p)).parties[p].phase.Collecting?
    ensures s.parties[p].r < |s.parties[q].log|
  {
    assert InStep(c, s.parties[p]) && WaitingSound(c, s, p);
    if q != p {
      AnsweredAlike(c, s, p, q);
      AnsweredRound(c, s, p, s.parties[p].r, q, s.parties[p].phase.digest);
    }
  }

  lemma FinishLockstep(c: Config, s: State, p: nat)
    requires AllFollow(c) && Lockstep(c, s) && Enabled(c, s, Finish(p))
    ensures Lockstep(c, Apply(c, s, Finish(p)))
  {
    var t := Apply(c, s, Finish(p));
    StepSound(c, s, Finish(p));
    assert InStep(c, s.parties[p]);
    forall q: nat | q < c.n
      ensures InStep(c, t.parties[q]) && PoolInStep(c, t, q) && LogInStep(c, t, q)
        && t.parties[p].r <= |t.parties[q].log|
    {
      LogGrows(c, s, t, q);
      PoolGrows(c, s, t, q);
      if t.parties[p].phase.Collecting? {
        FinishedByAll(c, s, p, q);
      }
    }
  }

  /** Steps of the network leave every party as it is. */
  lemma SettleLockstep(c: Config, s: State, a: Step)
    requires AllFollow(c) && Lockstep(c, s) && Enabled(c, s, a)
    requires a.Respond? || a.Fail? || a.Lose? || a.Greet?
    ensures Lockstep(c, Apply(c, s, a))
  {
    var t := Apply(c, s, a);
    StepSound(c, s, a);
    PoolGrows(c, s, t, 0);
    assert InStep(c, s.parties[0]);
    OthersInStep(c, s, t, 0);
  }

  lemma StepLockstep(c: Config, s: State, a: Step)
    requires AllFollow(c) && Lockstep(c, s) && Enabled(c, s, a) && Gated(s, a)
    ensures Lockstep(c, Apply(c, s, a))
  {
    var t := Apply(c, s, a);
    match a
    case Submit(p, payloads) => SubmitLockstep(c, s, p, payloads);
    case Deliver(req) => DeliverLockstep(c, s, req);
    case Take(p, order) => TakeLockstep(c, s, p, order);
    case Finish(p) => FinishLockstep(c, s, p);
    case Stop(p) =>
      StepSound(c, s, a);
      PoolGrows(c, s, t, p);
      assert InStep(c, s.parties[p]);
      OthersInStep(c, s, t, p);
    case Respond(ack) => SettleLockstep(c, s, a);
    case Fail(req, failure) => SettleLockstep(c, s, a);
    case Lose(req) => SettleLockstep(c, s, a);
    case Greet(req) => SettleLockstep(c, s, a);
    case Intrude(req) => assert false;
    case Forge(req) => assert false;
    case Lie(ack) => assert false;
  }

  lemma {:induction false} RunLockstep(c: Config, states: seq<State>, steps: seq<Step>, i: nat)
    requires GatedRun(c, states, steps) && i < |states|
    ensures Lockstep(c, states[i])
  {
    if i == 0 {
      InitLockstep(c);
    } else {
      RunLockstep(c, states, steps, i - 1);
      StepLockstep(c, states[i - 1], steps[i - 1]);
    }
  }

  // ---------- what a gated run guarantees ----------

  function RoundOf(m: Msg): nat {
    match m.response case Incoming(req) => req.k case Outgoing(k) => k
  }

  /** Rounds never drift apart by more than one, and whatever a party still has to
      hash is of one round, at most one message a sender. */
  lemma RoundSeparation(c: Config, states: seq<State>, steps: seq<Step>, i: nat, p: nat, q: nat)
    requires GatedRun(c, states, steps) && i < |states| && p < c.n && q < c.n
    ensures var (x, y) := (states[i].parties[p], states[i].parties[q]);
      && x.r <= y.r + 1 && y.r <= x.r + 1
      && OnePerSender(Pool(x))
      && (forall m :: m in Pool(x) ==> RoundOf(m) == |x.log| && x.r <= |x.log| <= x.r + 1)
  {
    RunLockstep(c, states, steps, i);
    var s := states[i];
    assert InStep(c, s.parties[p]) && InStep(c, s.parties[q]);
    assert s.parties[p].r <= |s.parties[q].log| && s.parties[q].r <= |s.parties[p].log|;
    forall m | m in Pool(s.parties[p]) ensures RoundOf(m) == |s.parties[p].log| {
      assert PoolInStep(c, s, p);
      assert Genuine(c, s, p, m, |s.parties[p].log|);
    }
  }

  /** The heap that completes a batch holds every sender once, the party itself
      included, so the own message the gadget insists on is there. */
  lemma FullHeapInRun(c: Config, states: seq<State>, steps: seq<Step>, i: nat, p: nat, order: seq<Msg>)
    requires GatedRun(c, states, steps) && i < |steps| && steps[i] == Take(p, order)
    requires |states[i].parties[p].heap| + 1 == c.n
    ensures FullBatch(order, c.n)
    ensures Awaited(order) == Some(states[i].parties[p].r)
  {
    RunLockstep(c, states, steps, i);
    FullHeap(c, states[i], p, order);
  }

  /** Heap and queue together never exceed n, so the echo channel always has room
      for the message about to be sent, and no party has an echo panic. */
  lemma QueueBound(c: Config, states: seq<State>, steps: seq<Step>, i: nat, p: nat)
    requires GatedRun(c, states, steps) && i < |states| && p < c.n
    ensures |states[i].parties[p].heap| + |states[i].parties[p].queue| <= c.n
    ensures !states[i].parties[p].phase.Crashed?
    ensures i < |steps| && SendsTo(steps[i], p) ==>
      |states[i].parties[p].queue| < c.n
  {
    RunLockstep(c, states, steps, i);
    PoolSize(c, states[i], p);
    assert InStep(c, states[i].parties[p]);
    if i < |steps| && SendsTo(steps[i], p) {
      RunLockstep(c, states, steps, i + 1);
      assert InStep(c, states[i + 1].parties[p]);
    }
  }

  /** What party a sent in round k was the same on the links to p and to q. */
  ghost predicate SameTo(s: State, n: nat, a: nat, k: nat, p: nat, q: nat) {
    && |s.parties| == n && a < n && p < n && q < n
    && k < |s.parties[a].subs| && |s.parties[a].subs[k]| == n
    && s.parties[a].subs[k][p] == s.parties[a].subs[k][q]
  }

  lemma BatchPayloads(c: Config, s: State, k: nat, p: nat, q: nat)
    requires Lockstep(c, s) && p < c.n && q < c.n && k < |s.parties[p].log| && k < |s.parties[q].log|
    ensures |s.parties[p].log[k]| == |s.parties[q].log[k]| == c.n
    ensures var (x, y) := (s.parties[p].log[k], s.parties[q].log[k]);
      forall a: nat :: a < c.n ==> (SameTo(s, c.n, a, k, p, q) <==> x[c.n - 1 - a].payload == y[c.n - 1 - a].payload)
  {
    assert LogInStep(c, s, p) && LogInStep(c, s, q);
    var (x, y) := (s.parties[p].log[k], s.parties[q].log[k]);
    forall a: nat | a < c.n
      ensures SameTo(s, c.n, a, k, p, q) <==> x[c.n - 1 - a].payload == y[c.n - 1 - a].payload
    {
      BatchHolds(c, s, p, k, a);
      BatchHolds(c, s, q, k, a);
    }
  }

  lemma SamePayloads(c: Config, s: State, k: nat, p: nat, q: nat)
    requires Lockstep(c, s) && p < c.n && q < c.n && k < |s.parties[p].log| && k < |s.parties[q].log|
    ensures Payloads(s.parties[p].log[k]) == Payloads(s.parties[q].log[k])
       <==> forall a: nat :: a < c.n ==> SameTo(s, c.n, a, k, p, q)
  {
    var x, y := s.parties[p].log[k], s.parties[q].log[k];
    BatchPayloads(c, s, k, p, q);
    if forall a: nat :: a < c.n ==> SameTo(s, c.n, a, k, p, q) {
      forall j | 0 <= j < c.n ensures x[j].payload == y[j].payload {
        assert SameTo(s, c.n, c.n - 1 - j, k, p, q);
      }
    } else {
      var a: nat :| a < c.n && !SameTo(s, c.n, a, k, p, q);
      assert Payloads(x)[c.n - 1 - a] != Payloads(y)[c.n - 1 - a];
    }
  }

  /** Every sender but those in `except` gave p and q the same payload in round k. */
  ghost predicate AllSame(s: State, n: nat, k: nat, p: nat, q: nat, except: set<nat>) {
    forall a: nat :: a < n && a !in except ==> SameTo(s, n, a, k, p, q)
  }

  lemma LiftByLength(c: Config, s: State, k: nat, p: nat, q: nat)
    requires Lockstep(c, s) && p < c.n && q < c.n && k < |s.parties[p].log| && k < |s.parties[q].log|
    requires HashInput(s.parties[p].log[k]) == HashInput(s.parties[q].log[k])
    ensures AllSame(s, c.n, k, p, q, {}) <==> SameLengths(s.parties[p].log[k], s.parties[q].log[k])
  {
    var x, y := s.parties[p].log[k], s.parties[q].log[k];
    BatchPayloads(c, s, k, p, q);
    SamePayloads(c, s, k, p, q);
    LiftsExactlyByLength(Payloads(x), Payloads(y));
    assert SameLengths(x, y) <==> forall j :: 0 <= j < |Payloads(x)| ==> |Payloads(x)[j]| == |Payloads(y)[j]|;
  }

  lemma LiftOne(c: Config, s: State, k: nat, p: nat, q: nat, e: nat)
    requires Lockstep(c, s) && p < c.n && q < c.n && k < |s.parties[p].log| && k < |s.parties[q].log|
    requires HashInput(s.parties[p].log[k]) == HashInput(s.parties[q].log[k])
    requires e < c.n && AllSame(s, c.n, k, p, q, {e})
    ensures SameTo(s, c.n, e, k, p, q)
  {
    var x, y := s.parties[p].log[k], s.parties[q].log[k];
    BatchPayloads(c, s, k, p, q);
    forall j | 0 <= j < c.n && j != c.n - 1 - e ensures Payloads(x)[j] == Payloads(y)[j] {
      assert SameTo(s, c.n, c.n - 1 - j, k, p, q);
    }
    OneEquivocatorIsCaught(Payloads(x), Payloads(y), c.n - 1 - e);
  }

  /** A difference between two batches of one round shows in the lengths, and is no
      single sender's. */
  ghost predicate Lifted(c: Config, s: State, k: nat, p: nat, q: nat)
    requires |s.parties| == c.n && p < c.n && q < c.n && k < |s.parties[p].log| && k < |s.parties[q].log|
  {
    && (AllSame(s, c.n, k, p, q, {}) <==> SameLengths(s.parties[p].log[k], s.parties[q].log[k]))
    && (forall e: nat :: e < c.n && AllSame(s, c.n, k, p, q, {e}) ==> AllSame(s, c.n, k, p, q, {}))
  }

  /** Reliable broadcast. When a round of p ends well, every party has hashed that
      round to the same digest: from the same input, unless two inputs collide. From
      the same input, each sender gave p and q the same payload exactly when the
      lengths agree sender by sender; a single equivocator is ruled out whatever
      lengths it uses. */
  lemma ReliableBroadcast(c: Config, states: seq<State>, steps: seq<Step>, i: nat, p: nat, q: nat)
    requires GatedRun(c, states, steps)
    requires i < |steps| && steps[i] == Finish(p) && states[i + 1].parties[p].phase.Collecting?
    requires q < c.n
    ensures var (s, k) := (states[i], states[i].parties[p].r);
      && k < |s.parties[p].log| && k < |s.parties[q].log|
      && FullBatch(s.parties[p].log[k], c.n) && FullBatch(s.parties[q].log[k], c.n)
      && HashedAlike(c.hash, s.parties[q].log[k], s.parties[p].log[k])
      && (HashInput(s.parties[q].log[k]) == HashInput(s.parties[p].log[k]) ==> Lifted(c, s, k, p, q))
  {
    var s := states[i];
    var k := s.parties[p].r;
    RunLockstep(c, states, steps, i);
    FinishedByAll(c, s, p, p);
    FinishedByAll(c, s, p, q);
    assert LogInStep(c, s, p) && LogInStep(c, s, q);
    SameDigest(c, s, p, q);
    if HashInput(s.parties[q].log[k]) == HashInput(s.parties[p].log[k]) {
      LiftAll(c, s, k, p, q);
    }
  }

  lemma LiftAll(c: Config, s: State, k: nat, p: nat, q: nat)
    requires Lockstep(c, s) && p < c.n && q < c.n && k < |s.parties[p].log| && k < |s.parties[q].log|
    requires HashInput(s.parties[p].log[k]) == HashInput(s.parties[q].log[k])
    ensures Lifted(c, s, k, p, q)
  {
    LiftByLength(c, s, k, p, q);
    forall e: nat | e < c.n && AllSame(s, c.n, k, p, q, {e}) ensures AllSame(s, c.n, k, p, q, {}) {
      LiftOne(c, s, k, p, q, e);
    }
  }

  lemma AgreedRound(c: Config, s: State, p: nat, k: nat, q: nat, batch: seq<Msg>)
    requires Lockstep(c, s) && p < c.n && q < c.n && AgreesWith(c, s, p, k, q, batch)
    ensures k < |s.parties[q].log| && HashedAlike(c.hash, s.parties[q].log[k], batch)
  {
    var req := LinkReq(s, p, k, q);
    var j :| 0 <= j < |s.parties[q].log| && AgreesIn(c, s, req, j, batch);
    HeldRound(c, s, req, j);
  }

  lemma SameDigest(c: Config, s: State, p: nat, q: nat)
    requires AllFollow(c) && Lockstep(c, s) && Enabled(c, s, Finish(p)) && q < c.n
    requires Apply(c, s, Finish(p)).parties[p].phase.Collecting?
    requires s.parties[p].r < |s.parties[p].log| && s.parties[p].r < |s.parties[q].log|
    ensures HashedAlike(c.hash, s.parties[q].log[s.parties[p].r], s.parties[p].log[s.parties[p].r])
  {
    var k := s.parties[p].r;
    assert InStep(c, s.parties[p]);
    if q != p {
      FinishAgrees(c, s, p, q);
      AgreedRound(c, s, p, k, q, s.parties[p].log[k]);
    }
  }

  // ---------- no false alarm ----------

  /** Every broadcast carries one payload on all its links, and every request gets its answer. */
  ghost predicate Faithful(a: Step) {
    && (a.Submit? ==> OnePayload(a.payloads))
    && !a.Fail?
  }

  ghost predicate OnePayload(payloads: seq<Bytes>) {
    forall x, y :: 0 <= x < |payloads| && 0 <= y < |payloads| ==> payloads[x] == payloads[y]
  }

  ghost predicate Uniform(c: Config, s: State)
    requires |s.parties| == c.n
  {
    forall p, k :: 0 <= p < c.n && 0 <= k < |s.parties[p].subs| ==> OnePayload(s.parties[p].subs[k])
  }

  ghost predicate AllOk(s: State) {
    forall p: nat, k: nat, j :: 0 <= j < |Outcomes(s, p, k)| ==> Outcomes(s, p, k)[j].Ok?
  }

  ghost predicate Quiet(c: Config, s: State)
    requires |s.parties| == c.n
  {
    Uniform(c, s) && AllOk(s)
  }

  /** No party has stopped with an echo error. */
  ghost predicate NoError(c: Config, s: State)
    requires |s.parties| == c.n
  {
    forall p :: 0 <= p < c.n && s.parties[p].phase.Stopped? ==> s.parties[p].phase.error == None
  }

  lemma UniformInput(c: Config, s: State, k: nat, p: nat, q: nat)
    requires Lockstep(c, s) && Uniform(c, s)
    requires p < c.n && q < c.n && k < |s.parties[p].log| && k < |s.parties[q].log|
    ensures HashInput(s.parties[p].log[k]) == HashInput(s.parties[q].log[k])
  {
    forall a: nat | a < c.n ensures SameTo(s, c.n, a, k, p, q) {
      BatchHolds(c, s, p, k, a);
    }
    SamePayloads(c, s, k, p, q);
  }

  /** What an answer to a broadcast is known to be. */
  lemma AnswerAt(c: Config, s: State, p: nat, k: nat, j: nat)
    requires |s.parties| == c.n && OutcomesSound(c, s, p, k) && AllOk(s) && j < |Outcomes(s, p, k)|
    ensures var a := Outcomes(s, p, k)[j];
      a.Ok? && a.value.0 < c.n && a.value.0 != p && Answered(c, s, p, k, a.value.0, a.value.1)
  {
  }

  /** Every answer to a waiting party is its own hash, or empty. */
  lemma QuietAnswer(c: Config, s: State, p: nat, j: nat)
    requires AllFollow(c) && Lockstep(c, s) && Quiet(c, s) && p < c.n && s.parties[p].phase.Waiting?
    requires j < |Outcomes(s, p, s.parties[p].phase.k)|
    ensures var a := Outcomes(s, p, s.parties[p].phase.k)[j];
      a.Ok? && (a.value.1 == [] || a.value.1 == s.parties[p].phase.digest)
  {
    var x := s.parties[p];
    AnswerAt(c, s, p, x.phase.k, j);
    var (q, digest) := Outcomes(s, p, x.phase.k)[j].value;
    if digest != [] {
      AnsweredRound(c, s, p, x.phase.k, q, digest);
      assert InStep(c, x) && WaitingSound(c, s, p);
      UniformInput(c, s, x.phase.k, p, q);
    }
  }

  /** Nobody answers a broadcast twice, and not its sender. */
  lemma AnswersAtMost(c: Config, s: State, p: nat, k: nat)
    requires |s.parties| == c.n && p < c.n && OutcomesSound(c, s, p, k) && AllOk(s)
    ensures |Outcomes(s, p, k)| <= c.n - 1
  {
    var out := Outcomes(s, p, k);
    var answerers: seq<nat> := seq(|out|, j requires 0 <= j < |out| => out[j].value.0);
    PigeonholeOthers(answerers, c.n, p);
  }

  ghost predicate EmptyAt(s: State, p: nat, k: nat, j: nat) {
    j < |Outcomes(s, p, k)| && Outcomes(s, p, k)[j].Ok? && Outcomes(s, p, k)[j].value.1 == []
  }

  /** A broadcast has had an empty answer. */
  ghost predicate EmptyAnswer(s: State, p: nat, k: nat) {
    exists j: nat :: EmptyAt(s, p, k, j)
  }

  /** A waiting party finds fault exactly with an empty answer. */
  lemma QuietVerdict(c: Config, s: State, p: nat)
    requires AllFollow(c) && Lockstep(c, s) && Quiet(c, s) && Enabled(c, s, Finish(p))
    ensures Verdict(Outcomes(s, p, s.parties[p].phase.k)[..c.n - 1], s.parties[p].phase.digest, 0).None?
       <==> !EmptyAnswer(s, p, s.parties[p].phase.k)
  {
    var x := s.parties[p];
    var out := Outcomes(s, p, x.phase.k);
    assert OutcomesSound(c, s, p, x.phase.k) && WaitingSound(c, s, p);
    AnswersAtMost(c, s, p, x.phase.k);
    assert out[..c.n - 1] == out;
    forall j: nat | j < |out|
      ensures out[j].Ok? && (EmptyAt(s, p, x.phase.k, j) <==> out[j].value.1 != x.phase.digest)
    {
      QuietAnswer(c, s, p, j);
    }
  }

  lemma StepQuiet(c: Config, s: State, a: Step)
    requires |s.parties| == c.n && Quiet(c, s) && Enabled(c, s, a) && Faithful(a)
    ensures Quiet(c, Apply(c, s, a))
  {
    UniformStep(c, s, a);
    OutcomesStep(c, s, a);
  }

  lemma UniformStep(c: Config, s: State, a: Step)
    requires |s.parties| == c.n && Uniform(c, s) && Enabled(c, s, a) && Faithful(a)
    ensures Uniform(c, Apply(c, s, a))
  {
  }

  lemma OutcomesStep(c: Config, s: State, a: Step)
    requires |s.parties| == c.n && Enabled(c, s, a) && Faithful(a) && AllOk(s)
    ensures AllOk(Apply(c, s, a))
  {
    var t := Apply(c, s, a);
    forall p: nat, k: nat, j | 0 <= j < |Outcomes(t, p, k)| ensures Outcomes(t, p, k)[j].Ok? {
      assert j < |Outcomes(s, p, k)| ==> Outcomes(s, p, k)[j].Ok?;
    }
  }

  lemma InitQuiet(c: Config)
    ensures Quiet(c, Init(c)) && NoError(c, Init(c))
    ensures forall p: nat, k: nat :: !EmptyAnswer(Init(c), p, k)
  {
    assert forall p: nat, k: nat :: Outcomes(Init(c), p, k) == [];
  }

  lemma {:induction false} RunQuiet(c: Config, states: seq<State>, steps: seq<Step>, i: nat)
    requires Run(c, states, steps) && i < |states|
    requires forall j :: 0 <= j < |steps| ==> Faithful(steps[j])
    ensures Quiet(c, states[i])
  {
    if i == 0 {
      InitQuiet(c);
    } else {
      RunQuiet(c, states, steps, i - 1);
      StepQuiet(c, states[i - 1], steps[i - 1]);
    }
  }

  /** A party that has ended greets p's k-th broadcast. */
  ghost predicate Greets(a: Step, p: nat, k: nat) {
    a.Greet? && a.greq.from == p && a.greq.k == k
  }

  ghost predicate GreetedBefore(steps: seq<Step>, i: nat, p: nat, k: nat) {
    exists j :: 0 <= j < i && j < |steps| && Greets(steps[j], p, k)
  }

  /** One more outcome makes for an empty answer exactly if it is one. */
  lemma SettledEmpty(s: State, req: Req, answer: Answer<nat>, p: nat, k: nat)
    ensures EmptyAnswer(Settle(s, req, answer), p, k) <==>
      EmptyAnswer(s, p, k) || (req.from == p && req.k == k && answer.Ok? && answer.value.1 == [])
  {
    var t := Settle(s, req, answer);
    var out := Outcomes(s, p, k);
    if req.from == p && req.k == k {
      assert Outcomes(t, p, k) == out + [answer];
      assert EmptyAt(t, p, k, |out|) <==> answer.Ok? && answer.value.1 == [];
    }
    assert forall j: nat :: j < |out| ==> (EmptyAt(t, p, k, j) <==> EmptyAt(s, p, k, j));
  }

  /** A digest sent back is not empty. */
  lemma AckNotEmpty(c: Config, s: State, ack: Ack)
    requires AllFollow(c) && Sound(c, s) && ack in s.acks && ack.req in s.open
    ensures ack.digest != []
  {
    assert OnLink(c, s, ack.req);
    assert Justified(c, s, ack.req, ack.digest);
  }

  /** Empty answers come from greetings alone. */
  lemma StepGreeted(c: Config, s: State, a: Step, p: nat, k: nat)
    requires AllFollow(c) && Sound(c, s) && Enabled(c, s, a)
    ensures EmptyAnswer(Apply(c, s, a), p, k) <==> EmptyAnswer(s, p, k) || Greets(a, p, k)
  {
    if a.Respond? {
      AckNotEmpty(c, s, a.ack);
      SettledEmpty(s, a.ack.req, Ok((a.ack.req.to, a.ack.digest)), p, k);
    } else if a.Fail? {
      SettledEmpty(s, a.freq, Err(a.failure), p, k);
    } else if a.Greet? {
      SettledEmpty(s.(flight := s.flight - {a.greq}), a.greq, Ok((a.greq.to, [])), p, k);
      SameAnswers(s.(flight := s.flight - {a.greq}), s, p, k);
    } else {
      SameAnswers(Apply(c, s, a), s, p, k);
    }
  }

  lemma SameAnswers(s: State, t: State, p: nat, k: nat)
    requires s.chan == t.chan
    ensures EmptyAnswer(s, p, k) <==> EmptyAnswer(t, p, k)
  {
    assert forall j: nat :: EmptyAt(s, p, k, j) <==> EmptyAt(t, p, k, j);
  }

  lemma {:induction false} RunGreeted(c: Config, states: seq<State>, steps: seq<Step>, i: nat, p: nat, k: nat)
    requires AllFollow(c) && Run(c, states, steps) && i < |states|
    ensures EmptyAnswer(states[i], p, k) <==> GreetedBefore(steps, i, p, k)
  {
    if i == 0 {
      InitQuiet(c);
    } else {
      RunGreeted(c, states, steps, i - 1, p, k);
      RunSound(c, states, steps, i - 1);
      StepGreeted(c, states[i - 1], steps[i - 1], p, k);
      assert GreetedBefore(steps, i, p, k) <==> GreetedBefore(steps, i - 1, p, k) || Greets(steps[i - 1], p, k);
    }
  }

  /** The step at which a party compares the answers to a broadcast that was greeted. */
  ghost predicate MeetsGreeting(states: seq<State>, steps: seq<Step>, i: nat)
    requires i < |steps| < |states|
  {
    && steps[i].Finish? && steps[i].p < |states[i].parties| && states[i].parties[steps[i].p].phase.Waiting?
    && GreetedBefore(steps, i, steps[i].p, states[i].parties[steps[i].p].phase.k)
  }

  /** A step raises an echo error exactly when it meets an empty answer. */
  lemma StepNoError(c: Config, s: State, a: Step)
    requires AllFollow(c) && Lockstep(c, s) && Quiet(c, s) && Enabled(c, s, a) && NoError(c, s)
    ensures NoError(c, Apply(c, s, a)) <==> !(a.Finish? && EmptyAnswer(s, a.p, s.parties[a.p].phase.k))
  {
    if a.Finish? {
      QuietVerdict(c, s, a.p);
      var t := Apply(c, s, a);
      assert t.parties[a.p].phase.Stopped? ==> t.parties[a.p].phase.error.Some?;
    }
  }

  lemma ErrorAt(c: Config, states: seq<State>, steps: seq<Step>, i: nat)
    requires GatedRun(c, states, steps) && i < |steps| && NoError(c, states[i])
    requires forall j :: 0 <= j < |steps| ==> Faithful(steps[j])
    ensures NoError(c, states[i + 1]) <==> !MeetsGreeting(states, steps, i)
  {
    var (s, a) := (states[i], steps[i]);
    assert Enabled(c, s, a) && states[i + 1] == Apply(c, s, a);
    RunLockstep(c, states, steps, i);
    RunQuiet(c, states, steps, i);
    StepNoError(c, s, a);
    if a.Finish? {
      RunGreeted(c, states, steps, i, a.p, s.parties[a.p].phase.k);
    }
  }

  lemma {:induction false} NoErrorUntil(c: Config, states: seq<State>, steps: seq<Step>, i: nat)
    requires GatedRun(c, states, steps) && i < |states|
    requires forall j :: 0 <= j < |steps| ==> Faithful(steps[j])
    requires forall j :: 0 <= j < i ==> !MeetsGreeting(states, steps, j)
    ensures NoError(c, states[i])
  {
    if i == 0 {
      InitQuiet(c);
    } else {
      NoErrorUntil(c, states, steps, i - 1);
      ErrorAt(c, states, steps, i - 1);
    }
  }

  /** False alarms, exactly: when senders do not equivocate and requests are answered,
      no party ever stops with an echo error if and only if no party compares the
      answers to a broadcast that one that had ended took for a proposal. */
  lemma FalseAlarmOnlyByGreeting(c: Config, states: seq<State>, steps: seq<Step>)
    requires GatedRun(c, states, steps)
    requires forall j :: 0 <= j < |steps| ==> Faithful(steps[j])
    ensures (forall i :: 0 <= i < |states| ==> NoError(c, states[i]))
       <==> (forall i :: 0 <= i < |steps| ==> !MeetsGreeting(states, steps, i))
  {
    if forall i :: 0 <= i < |steps| ==> !MeetsGreeting(states, steps, i) {
      forall i | 0 <= i < |states| ensures NoError(c, states[i]) {
        NoErrorUntil(c, states, steps, i);
      }
    } else {
      var i :| 0 <= i < |steps| && MeetsGreeting(states, steps, i);
      if NoError(c, states[i]) {
        ErrorAt(c, states, steps, i);
        assert !NoError(c, states[i + 1]);
      }
    }
  }

  /** No false alarm as long as no party that has ended greets anything. */
  lemma NoFalseAlarm(c: Config, states: seq<State>, steps: seq<Step>, i: nat)
    requires GatedRun(c, states, steps) && i < |states|
    requires forall j :: 0 <= j < |steps| ==> Faithful(steps[j]) && !steps[j].Greet?
    ensures NoError(c, states[i])
  {
    NoErrorUntil(c, states, steps, i);
  }
}
