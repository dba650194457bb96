/** n parties running echo gadgets over a network that loses, delays and reorders
    messages. Every link of a broadcast may carry its own payload, and parties
    outside `honest` send and answer whatever they like. */
module EchoNetwork {
  import opened Basics
  import opened Echo

  /** One link of a broadcast: party `from`'s k-th broadcast as sent to `to`. */
  datatype Req = Req(from: nat, to: nat, k: nat, payload: Bytes)

  /** An incoming message carries the request to acknowledge, the own one its number. */
  type Msg = EchoMessage<Req, nat>

  datatype Phase =
    | Collecting
    | Waiting(k: nat, digest: Bytes)
    | Stopped(error: Option<EchoError>)
    | Crashed

  /** `subs` lists what the party submitted, link by link; `log` the batches it
      hashed, in the order popped. */
  datatype Party = Party(r: nat, subs: seq<seq<Bytes>>, phase: Phase, heap: seq<Msg>, queue: seq<Msg>,
                         log: seq<seq<Msg>>)
  {
    predicate Alive() {
      phase.Collecting? || phase.Waiting?
    }
  }

  datatype Ack = Ack(req: Req, digest: Bytes)

  /** `flight`: sent, not delivered. `open`: sent, outcome still due to the sender.
      `acks`: hashes sent back. `chan`: outcomes that reached broadcast k of party p. */
  datatype State = State(parties: seq<Party>, flight: set<Req>, open: set<Req>, acks: set<Ack>,
                         chan: map<(nat, nat), seq<Answer<nat>>>)

  datatype Config = Config(n: nat, honest: set<nat>, hash: Bytes -> Bytes)

  /** Greet: a party whose computation has ended is back in phase 1, takes a late
      broadcast for a proposal and answers it with an empty payload. Intrude: such a
      party broadcasts for another session; `ireq.k` numbers that past its own. */
  datatype Step =
    | Submit(p: nat, payloads: seq<Bytes>)
    | Deliver(req: Req)
    | Take(p: nat, order: seq<Msg>)
    | Respond(ack: Ack)
    | Fail(freq: Req, failure: RequestFailure)
    | Finish(p: nat)
    | Stop(p: nat)
    | Greet(greq: Req)
    | Intrude(ireq: Req)
    | Lose(lreq: Req)
    | Forge(fake: Req)
    | Lie(lie: Ack)

  ghost predicate GoodConfig(c: Config) {
    c.n >= 2 && forall p :: p in c.honest ==> p < c.n
  }

  function Own(p: nat, k: nat, payload: Bytes): Msg {
    EchoMessage(p + 1, payload, Outgoing(k))
  }

  function Received(req: Req): Msg {
    EchoMessage(req.from + 1, req.payload, Incoming(req))
  }

  function Fresh(): Party {
    Party(0, [], Collecting, [], [], [])
  }

  function Init(c: Config): State {
    State(seq(c.n, _ => Fresh()), {}, {}, {}, map[])
  }

  function Links(n: nat, p: nat, k: nat, payloads: seq<Bytes>): (r: set<Req>)
    requires |payloads| == n
    ensures forall req :: req in r <==>
      req.from == p && req.to < n && req.to != p && req.k == k && req.payload == payloads[req.to]
  {
    set q | 0 <= q < n && q != p :: Req(p, q, k, payloads[q])
  }

  function AckAll(tokens: seq<Req>, digest: Bytes): (r: set<Ack>)
    ensures forall a :: a in r <==> a.req in tokens && a.digest == digest
  {
    set t | t in tokens :: Ack(t, digest)
  }

  function Outcomes(s: State, p: nat, k: nat): seq<Answer<nat>> {
    if (p, k) in s.chan then s.chan[(p, k)] else []
  }

  function Settle(s: State, req: Req, answer: Answer<nat>): State {
    s.(open := s.open - {req}, chan := s.chan[(req.from, req.k) := Outcomes(s, req.from, req.k) + [answer]])
  }

  function SetParty(s: State, p: nat, x: Party): (r: State)
    requires p < |s.parties|
    ensures r == s.(parties := r.parties) && |r.parties| == |s.parties| && r.parties[p] == x
    ensures forall q :: 0 <= q < |s.parties| && q != p ==> r.parties[q] == s.parties[q]
  {
    s.(parties := s.parties[p := x])
  }

  ghost predicate Enabled(c: Config, s: State, a: Step)
    requires |s.parties| == c.n
  {
    match a
    case Submit(p, payloads) => p in c.honest && p < c.n && s.parties[p].Alive() && |payloads| == c.n
    case Deliver(req) => req in s.flight && req.to in c.honest && req.to < c.n && s.parties[req.to].Alive()
    case Take(p, order) =>
      && p in c.honest && p < c.n && s.parties[p].phase.Collecting? && s.parties[p].queue != []
      && (var heap := s.parties[p].heap + [s.parties[p].queue[0]];
          |heap| == c.n ==> Drains(heap, order))
    case Respond(ack) => ack in s.acks && ack.req in s.open
    case Fail(req, _) => req in s.open
    case Finish(p) =>
      && p in c.honest && p < c.n && s.parties[p].phase.Waiting?
      && |Outcomes(s, p, s.parties[p].phase.k)| >= c.n - 1
    case Stop(p) => p in c.honest && p < c.n && s.parties[p].Alive()
    case Greet(req) =>
      && req in s.flight && req in s.open
      && req.to in c.honest && req.to < c.n && s.parties[req.to].phase.Stopped?
    case Intrude(req) =>
      && req.from in c.honest && req.from < c.n && req.to < c.n && req.from != req.to
      && s.parties[req.from].phase.Stopped? && req.k >= |s.parties[req.from].subs|
    case Lose(req) => req in s.flight
    case Forge(req) => req.from !in c.honest && req.to < c.n && req.from < c.n && req.from != req.to
    case Lie(ack) => ack.req.to !in c.honest && ack.req in s.open
  }

  /** The batch is closed: hash it, acknowledge, and wait for the own message's answers. */
  function Close(c: Config, s: State, p: nat, order: seq<Msg>, queue: seq<Msg>): State
    requires p < |s.parties|
  {
    var digest := c.hash(HashInput(order));
    var x := s.parties[p];
    match Awaited(order)
    case None => SetParty(s, p, x.(phase := Crashed, heap := [], queue := queue))
    case Some(k) =>
      SetParty(s, p, x.(phase := Waiting(k, digest), heap := [], queue := queue, log := x.log + [order]))
      .(acks := s.acks + AckAll(Acks(order), digest))
  }

  /** A full echo channel, like a batch without an own message, is a panic. */
  ghost function Apply(c: Config, s: State, a: Step): (t: State)
    requires |s.parties| == c.n && Enabled(c, s, a)
    ensures |t.parties| == c.n
  {
    match a
    case Submit(p, payloads) =>
      var x := s.parties[p];
      if |x.queue| >= c.n then SetParty(s, p, x.(phase := Crashed)) else
      var k := |x.subs|;
      var links := Links(c.n, p, k, payloads);
      SetParty(s, p, x.(subs := x.subs + [payloads], queue := x.queue + [Own(p, k, payloads[p])]))
      .(flight := s.flight + links, open := s.open + links)
    case Deliver(req) =>
      var x := s.parties[req.to];
      if |x.queue| >= c.n then SetParty(s, req.to, x.(phase := Crashed)) else
      SetParty(s, req.to, x.(queue := x.queue + [Received(req)])).(flight := s.flight - {req})
    case Take(p, order) =>
      var x := s.parties[p];
      var heap := x.heap + [x.queue[0]];
      if |heap| == c.n then Close(c, s, p, order, x.queue[1..])
      else SetParty(s, p, x.(heap := heap, queue := x.queue[1..]))
    case Respond(ack) => Settle(s, ack.req, Ok((ack.req.to, ack.digest)))
    case Fail(req, failure) => Settle(s, req, Err(failure))
    case Finish(p) =>
      var x := s.parties[p];
      var verdict := Verdict(Outcomes(s, p, x.phase.k)[..c.n - 1], x.phase.digest, 0);
      SetParty(s, p, if verdict.None? then x.(r := x.r + 1, phase := Collecting) else x.(phase := Stopped(verdict)))
    case Stop(p) => SetParty(s, p, s.parties[p].(phase := Stopped(None)))
    case Greet(req) => Settle(s.(flight := s.flight - {req}), req, Ok((req.to, [])))
    case Intrude(req) => s.(flight := s.flight + {req})
    case Lose(req) => s.(flight := s.flight - {req})
    case Forge(req) => s.(flight := s.flight + {req})
    case Lie(ack) => s.(acks := s.acks + {ack})
  }

  // ---------- runs ----------

  ghost predicate Run(c: Config, states: seq<State>, steps: seq<Step>) {
    && |states| == |steps| + 1
    && states[0] == Init(c)
    && (forall i :: 0 <= i < |states| ==> |states[i].parties| == c.n)
    && (forall i :: 0 <= i < |steps| ==>
          Enabled(c, states[i], steps[i]) && states[i + 1] == Apply(c, states[i], steps[i]))
  }

  lemma RunOnce(c: Config, states: seq<State>, steps: seq<Step>, a: Step)
    requires Run(c, states, steps) && Enabled(c, states[|steps|], a)
    ensures Run(c, states + [Apply(c, states[|steps|], a)], steps + [a])
  {
    var t := Apply(c, states[|steps|], a);
    var states', steps' := states + [t], steps + [a];
    assert states'[0] == states[0];
    forall i | 0 <= i < |steps'|
      ensures Enabled(c, states'[i], steps'[i]) && states'[i + 1] == Apply(c, states'[i], steps'[i])
    {
      if i < |steps| {
        assert states'[i] == states[i] && states'[i + 1] == states[i + 1] && steps'[i] == steps[i];
      } else {
        assert states'[i] == states[|steps|];
      }
    }
  }

  /** A run all of whose steps are of some kind. */
  ghost predicate RunOf(c: Config, states: seq<State>, steps: seq<Step>, kind: (State, Step) -> bool) {
    Run(c, states, steps) && forall i :: 0 <= i < |steps| ==> kind(states[i], steps[i])
  }

  ghost predicate Reached(c: Config, s: State, kind: (State, Step) -> bool) {
    exists states: seq<State>, steps: seq<Step> :: RunOf(c, states, steps, kind) && states[|steps|] == s
  }

  lemma Start(c: Config, kind: (State, Step) -> bool)
    ensures Reached(c, Init(c), kind)
  {
    assert RunOf(c, [Init(c)], [], kind);
  }

  lemma Go(c: Config, s: State, a: Step, kind: (State, Step) -> bool) returns (t: State)
    requires Reached(c, s, kind) && |s.parties| == c.n && Enabled(c, s, a) && kind(s, a)
    ensures Reached(c, t, kind) && t == Apply(c, s, a)
  {
    var states: seq<State>, steps: seq<Step> :| RunOf(c, states, steps, kind) && states[|steps|] == s;
    t := Apply(c, s, a);
    RunOnce(c, states, steps, a);
    var states', steps' := states + [t], steps + [a];
    forall i | 0 <= i < |steps'| ensures kind(states'[i], steps'[i]) {
      if i < |steps| {
        assert states'[i] == states[i] && steps'[i] == steps[i];
      } else {
        assert states'[i] == states[|steps|];
      }
    }
    assert RunOf(c, states', steps', kind) && states'[|steps'|] == t;
  }

  // ---------- what holds whoever misbehaves ----------

  ghost predicate Holds(batch: seq<Msg>, req: Req) {
    exists m :: m in batch && m.response == Incoming(req)
  }

  /** Party req.to hashed a batch holding this request and the hash is this digest. */
  ghost predicate Justified(c: Config, s: State, req: Req, digest: Bytes)
    requires |s.parties| == c.n
  {
    && req.to < c.n
    && var log := s.parties[req.to].log;
       exists j :: 0 <= j < |log| && Holds(log[j], req) && digest == c.hash(HashInput(log[j]))
  }

  /** The request of p's k-th broadcast on the link to q. */
  ghost predicate OnLink(c: Config, s: State, req: Req)
    requires |s.parties| == c.n
  {
    && req.from < c.n && req.to < c.n && req.from != req.to
    && var subs := s.parties[req.from].subs;
       req.k < |subs| && |subs[req.k]| == c.n && req.payload == subs[req.k][req.to]
  }

  /** What p put on the link to q as its k-th broadcast. */
  function LinkReq(s: State, p: nat, k: nat, q: nat): Req
    requires p < |s.parties| && k < |s.parties[p].subs| && q < |s.parties[p].subs[k]|
  {
    Req(p, q, k, s.parties[p].subs[k][q])
  }

  /** Party q answered p's k-th broadcast with this hash. If q follows the gadget the
      hash is empty, or q was entitled to it by the very request p put on the link. */
  ghost predicate Answered(c: Config, s: State, p: nat, k: nat, q: nat, digest: Bytes)
    requires |s.parties| == c.n
  {
    q in c.honest && digest != [] ==>
      && p < c.n && q < c.n && k < |s.parties[p].subs| && |s.parties[p].subs[k]| == c.n
      && Justified(c, s, LinkReq(s, p, k, q), digest)
  }

  ghost predicate OutcomesSound(c: Config, s: State, p: nat, k: nat)
    requires |s.parties| == c.n
  {
    var out := Outcomes(s, p, k);
    && (forall i :: 0 <= i < |out| && out[i].Ok? ==>
          out[i].value.0 < c.n && out[i].value.0 != p && Answered(c, s, p, k, out[i].value.0, out[i].value.1))
    && (forall i, j :: 0 <= i < j < |out| && out[i].Ok? && out[j].Ok? ==> out[i].value.0 != out[j].value.0)
    && (forall i, req :: 0 <= i < |out| && out[i].Ok? && req in s.open && req.from == p && req.k == k ==>
          out[i].value.0 != req.to)
    && (out != [] ==> p < c.n && k < |s.parties[p].subs|)
  }

  ghost predicate OpenSound(c: Config, s: State)
    requires |s.parties| == c.n
  {
    forall req :: req in s.open ==> OnLink(c, s, req)
  }

  ghost predicate WaitingSound(c: Config, s: State, p: nat)
    requires |s.parties| == c.n && p < c.n
  {
    var x := s.parties[p];
    x.phase.Waiting? ==>
      && x.log != []
      && Awaited(x.log[|x.log| - 1]) == Some(x.phase.k)
      && x.phase.digest == c.hash(HashInput(x.log[|x.log| - 1]))
  }

  ghost predicate Addressed(x: Party, p: nat) {
    && (forall m :: m in x.heap && m.response.Incoming? ==> m.response.tx.to == p)
    && (forall m :: m in x.queue && m.response.Incoming? ==> m.response.tx.to == p)
  }

  ghost predicate Sound(c: Config, s: State) {
    && |s.parties| == c.n
    && OpenSound(c, s)
    && (forall p: nat :: p < c.n ==> Addressed(s.parties[p], p))
    && (forall ack :: ack in s.acks && ack.req.to in c.honest ==> Justified(c, s, ack.req, ack.digest))
    && (forall p: nat, k: nat :: OutcomesSound(c, s, p, k))
    && (forall p: nat :: p < c.n ==> WaitingSound(c, s, p))
  }

  /** Logs only grow. */
  ghost predicate LogsGrow(s: State, t: State) {
    |s.parties| == |t.parties| && forall q :: 0 <= q < |s.parties| ==> s.parties[q].log <= t.parties[q].log
  }

  lemma JustifiedGrows(c: Config, s: State, t: State, req: Req, digest: Bytes)
    requires |s.parties| == c.n && LogsGrow(s, t)
    requires Justified(c, s, req, digest)
    ensures Justified(c, t, req, digest)
  {
    var log := s.parties[req.to].log;
    var j :| 0 <= j < |log| && Holds(log[j], req) && digest == c.hash(HashInput(log[j]));
    assert t.parties[req.to].log[j] == s.parties[req.to].log[j];
  }

  lemma AnsweredGrows(c: Config, s: State, t: State, p: nat, k: nat, q: nat, digest: Bytes)
    requires |s.parties| == c.n && LogsGrow(s, t)
    requires p < c.n ==> s.parties[p].subs <= t.parties[p].subs
    requires Answered(c, s, p, k, q, digest)
    ensures Answered(c, t, p, k, q, digest)
  {
    if q in c.honest && digest != [] {
      JustifiedGrows(c, s, t, LinkReq(s, p, k, q), digest);
    }
  }

  /** Outcomes stay sound when nothing is added to them and no new request opens on their broadcast. */
  lemma OutcomesGrow(c: Config, s: State, t: State, p: nat, k: nat)
    requires |s.parties| == c.n && LogsGrow(s, t)
    requires OutcomesSound(c, s, p, k)
    requires Outcomes(t, p, k) == Outcomes(s, p, k)
    requires forall req :: req in t.open && req.from == p && req.k == k && Outcomes(s, p, k) != [] ==> req in s.open
    requires p < c.n ==> s.parties[p].subs <= t.parties[p].subs
    ensures OutcomesSound(c, t, p, k)
  {
    var out := Outcomes(s, p, k);
    forall i | 0 <= i < |out| && out[i].Ok? ensures Answered(c, t, p, k, out[i].value.0, out[i].value.1) {
      AnsweredGrows(c, s, t, p, k, out[i].value.0, out[i].value.1);
    }
  }

  lemma ApplyGrows(c: Config, s: State, a: Step)
    requires |s.parties| == c.n && Enabled(c, s, a)
    ensures LogsGrow(s, Apply(c, s, a))
    ensures forall p :: 0 <= p < c.n ==> s.parties[p].subs <= Apply(c, s, a).parties[p].subs
  {
  }

  lemma InitSound(c: Config)
    ensures Sound(c, Init(c))
  {
  }

  /** An answer to a request comes from its target; a follower's is empty or one it was entitled to. */
  ghost predicate Fair(c: Config, s: State, req: Req, answer: Answer<nat>)
    requires |s.parties| == c.n
  {
    answer.Ok? ==>
      && answer.value.0 == req.to
      && (req.to in c.honest && answer.value.1 != [] ==> Justified(c, s, req, answer.value.1))
  }

  /** One more outcome for the broadcast it answers. */
  lemma SettleOutcomes(c: Config, s: State, req: Req, answer: Answer<nat>)
    requires Sound(c, s) && req in s.open && Fair(c, s, req, answer)
    ensures OutcomesSound(c, Settle(s, req, answer), req.from, req.k)
  {
    var t := Settle(s, req, answer);
    var out := Outcomes(s, req.from, req.k);
    assert OutcomesSound(c, s, req.from, req.k);
    assert Outcomes(t, req.from, req.k) == out + [answer];
    forall i | 0 <= i < |out| && out[i].Ok? ensures Answered(c, t, req.from, req.k, out[i].value.0, out[i].value.1) {
      AnsweredGrows(c, s, t, req.from, req.k, out[i].value.0, out[i].value.1);
    }
    assert OnLink(c, s, req) && req == LinkReq(s, req.from, req.k, req.to);
    if answer.Ok? && req.to in c.honest && answer.value.1 != [] {
      JustifiedGrows(c, s, t, req, answer.value.1);
    }
  }

  lemma SettleSound(c: Config, s: State, req: Req, answer: Answer<nat>)
    requires Sound(c, s) && req in s.open && Fair(c, s, req, answer)
    ensures Sound(c, Settle(s, req, answer))
  {
    var t := Settle(s, req, answer);
    forall ack | ack in t.acks && ack.req.to in c.honest ensures Justified(c, t, ack.req, ack.digest) {
      JustifiedGrows(c, s, t, ack.req, ack.digest);
    }
    forall p: nat, k: nat ensures OutcomesSound(c, t, p, k) {
      if p == req.from && k == req.k {
        SettleOutcomes(c, s, req, answer);
      } else {
        assert OutcomesSound(c, s, p, k);
        OutcomesGrow(c, s, t, p, k);
      }
    }
    forall p: nat | p < c.n ensures WaitingSound(c, t, p) && Addressed(t.parties[p], p) {
      assert WaitingSound(c, s, p) && Addressed(s.parties[p], p);
    }
  }

  /** Steps that leave every channel alone keep what holds of the channels. */
  lemma QuietSound(c: Config, s: State, t: State)
    requires Sound(c, s) && LogsGrow(s, t)
    requires t.chan == s.chan
    requires forall p :: 0 <= p < c.n ==> s.parties[p].subs <= t.parties[p].subs
    requires OpenSound(c, t)
    requires forall req :: req in t.open && req !in s.open ==> req.from < c.n && req.k == |s.parties[req.from].subs|
    requires forall ack :: ack in t.acks && ack !in s.acks && ack.req.to in c.honest ==>
      Justified(c, t, ack.req, ack.digest)
    requires forall p: nat :: p < c.n ==> WaitingSound(c, t, p) && Addressed(t.parties[p], p)
    ensures Sound(c, t)
  {
    forall ack | ack in t.acks && ack.req.to in c.honest ensures Justified(c, t, ack.req, ack.digest) {
      if ack in s.acks {
        JustifiedGrows(c, s, t, ack.req, ack.digest);
      }
    }
    forall p: nat, k: nat ensures OutcomesSound(c, t, p, k) {
      assert OutcomesSound(c, s, p, k);
      OutcomesGrow(c, s, t, p, k);
    }
  }

  lemma CloseJustifies(c: Config, s: State, p: nat, order: seq<Msg>, queue: seq<Msg>, ack: Ack)
    requires |s.parties| == c.n && p < c.n && Awaited(order).Some?
    requires forall m :: m in order && m.response.Incoming? ==> m.response.tx.to == p
    requires ack in AckAll(Acks(order), c.hash(HashInput(order)))
    ensures Justified(c, Close(c, s, p, order, queue), ack.req, ack.digest)
  {
    AcksMembers(order, ack.req);
    var t := Close(c, s, p, order, queue);
    var j := |s.parties[p].log|;
    assert t.parties[p].log[j] == order;
    assert Holds(order, ack.req);
  }

  lemma SubmitSound(c: Config, s: State, p: nat, payloads: seq<Bytes>)
    requires GoodConfig(c) && Sound(c, s) && Enabled(c, s, Submit(p, payloads))
    ensures Sound(c, Apply(c, s, Submit(p, payloads)))
  {
    var t := Apply(c, s, Submit(p, payloads));
    forall q: nat | q < c.n ensures WaitingSound(c, t, q) && Addressed(t.parties[q], q) {
      assert WaitingSound(c, s, q) && Addressed(s.parties[q], q);
    }
    ApplyGrows(c, s, Submit(p, payloads));
    QuietSound(c, s, t);
  }

  /** A step that leaves requests, answers, logs and submissions alone. */
  lemma LocalSound(c: Config, s: State, p: nat, x: Party, flight: set<Req>)
    requires Sound(c, s) && p < c.n
    requires x.log == s.parties[p].log && x.subs == s.parties[p].subs
    requires x.phase.Waiting? ==> x.phase == s.parties[p].phase
    requires Addressed(x, p)
    ensures Sound(c, SetParty(s, p, x).(flight := flight))
  {
    var t := SetParty(s, p, x).(flight := flight);
    forall q: nat | q < c.n ensures WaitingSound(c, t, q) && Addressed(t.parties[q], q) {
      assert WaitingSound(c, s, q) && Addressed(s.parties[q], q);
    }
    QuietSound(c, s, t);
  }

  lemma NewAcksJustified(c: Config, s: State, p: nat, order: seq<Msg>)
    requires GoodConfig(c) && Sound(c, s) && Enabled(c, s, Take(p, order)) && |s.parties[p].heap| + 1 == c.n
    ensures var t := Apply(c, s, Take(p, order));
      forall ack :: ack in t.acks && ack !in s.acks ==> Justified(c, t, ack.req, ack.digest)
  {
    var t := Apply(c, s, Take(p, order));
    var x := s.parties[p];
    assert Addressed(x, p);
    DrainKeeps(x.heap + [x.queue[0]], order);
    forall ack | ack in t.acks && ack !in s.acks ensures Justified(c, t, ack.req, ack.digest) {
      CloseJustifies(c, s, p, order, x.queue[1..], ack);
    }
  }

  /** The n-th message closes the batch. */
  lemma CloseSound(c: Config, s: State, p: nat, order: seq<Msg>)
    requires GoodConfig(c) && Sound(c, s) && Enabled(c, s, Take(p, order)) && |s.parties[p].heap| + 1 == c.n
    ensures Sound(c, Apply(c, s, Take(p, order)))
  {
    var t := Apply(c, s, Take(p, order));
    NewAcksJustified(c, s, p, order);
    forall q: nat | q < c.n ensures WaitingSound(c, t, q) && Addressed(t.parties[q], q) {
      assert WaitingSound(c, s, q) && Addressed(s.parties[q], q);
    }
    ApplyGrows(c, s, Take(p, order));
    QuietSound(c, s, t);
  }

  lemma TakeSound(c: Config, s: State, p: nat, order: seq<Msg>)
    requires GoodConfig(c) && Sound(c, s) && Enabled(c, s, Take(p, order))
    ensures Sound(c, Apply(c, s, Take(p, order)))
  {
    if |s.parties[p].heap| + 1 == c.n {
      CloseSound(c, s, p, order);
    } else {
      assert Addressed(s.parties[p], p);
      LocalSound(c, s, p, Apply(c, s, Take(p, order)).parties[p], s.flight);
    }
  }

  lemma OutsideSound(c: Config, s: State, flight: set<Req>, acks: set<Ack>)
    requires Sound(c, s)
    requires forall ack :: ack in acks && ack !in s.acks ==> ack.req.to !in c.honest
    ensures Sound(c, s.(flight := flight, acks := acks))
  {
    var t := s.(flight := flight, acks := acks);
    forall q: nat | q < c.n ensures WaitingSound(c, t, q) && Addressed(t.parties[q], q) {
      assert WaitingSound(c, s, q) && Addressed(s.parties[q], q);
    }
    QuietSound(c, s, t);
  }

  lemma GreetSound(c: Config, s: State, req: Req)
    requires GoodConfig(c) && Sound(c, s) && Enabled(c, s, Greet(req))
    ensures Sound(c, Apply(c, s, Greet(req)))
  {
    OutsideSound(c, s, s.flight - {req}, s.acks);
    SettleSound(c, s.(flight := s.flight - {req}), req, Ok((req.to, [])));
  }

  /** Every step keeps what the agreement rests on, whatever the faulty parties do. */
  lemma StepSound(c: Config, s: State, a: Step)
    requires GoodConfig(c) && Sound(c, s) && Enabled(c, s, a)
    ensures Sound(c, Apply(c, s, a))
  {
    var t := Apply(c, s, a);
    match a
    case Submit(p, payloads) => SubmitSound(c, s, p, payloads);
    case Deliver(req) =>
      assert Addressed(s.parties[req.to], req.to);
      LocalSound(c, s, req.to, t.parties[req.to], t.flight);
    case Take(p, order) => TakeSound(c, s, p, order);
    case Respond(ack) => SettleSound(c, s, ack.req, Ok((ack.req.to, ack.digest)));
    case Fail(req, failure) => SettleSound(c, s, req, Err(failure));
    case Finish(p) =>
      assert Addressed(s.parties[p], p);
      LocalSound(c, s, p, t.parties[p], s.flight);
    case Stop(p) =>
      assert Addressed(s.parties[p], p);
      LocalSound(c, s, p, t.parties[p], s.flight);
    case Greet(req) => GreetSound(c, s, req);
    case Intrude(req) => OutsideSound(c, s, t.flight, s.acks);
    case Lose(req) => OutsideSound(c, s, t.flight, s.acks);
    case Forge(req) => OutsideSound(c, s, t.flight, s.acks);
    case Lie(ack) => OutsideSound(c, s, s.flight, t.acks);
  }

  lemma {:induction false} RunSound(c: Config, states: seq<State>, steps: seq<Step>, i: nat)
    requires GoodConfig(c) && Run(c, states, steps) && i < |states|
    ensures Sound(c, states[i])
  {
    if i == 0 {
      InitSound(c);
    } else {
      RunSound(c, states, steps, i - 1);
      StepSound(c, states[i - 1], steps[i - 1]);
    }
  }

  /** A digest has some length. */
  ghost predicate NeverEmpty(hash: Bytes -> Bytes) {
    forall x :: hash(x) != []
  }

  ghost predicate Collision(hash: Bytes -> Bytes, x: Bytes, y: Bytes) {
    x != y && hash(x) == hash(y)
  }

  ghost predicate CollisionFree(hash: Bytes -> Bytes) {
    forall x, y :: !Collision(hash, x, y)
  }

  /** Two batches with one digest: the same hash input, or else the two inputs collide. */
  ghost predicate HashedAlike(hash: Bytes -> Bytes, a: seq<Msg>, b: seq<Msg>) {
    HashInput(a) == HashInput(b) || Collision(hash, HashInput(a), HashInput(b))
  }

  /** Party q acknowledged p's broadcast k, as p put it on the link to q, from a
      batch with the digest of `batch`. */
  ghost predicate AgreesWith(c: Config, s: State, p: nat, k: nat, q: nat, batch: seq<Msg>)
    requires |s.parties| == c.n && p < c.n && q < c.n
  {
    && k < |s.parties[p].subs| && |s.parties[p].subs[k]| == c.n
    && exists j :: 0 <= j < |s.parties[q].log| && AgreesIn(c, s, LinkReq(s, p, k, q), j, batch)
  }

  ghost predicate AgreesIn(c: Config, s: State, req: Req, j: nat, batch: seq<Msg>)
    requires |s.parties| == c.n && req.to < c.n && j < |s.parties[req.to].log|
  {
    Holds(s.parties[req.to].log[j], req) && HashedAlike(c.hash, s.parties[req.to].log[j], batch)
  }

  /** n - 1 answers to a broadcast come from all the other parties. */
  lemma EveryoneAnswered(c: Config, s: State, p: nat, k: nat, q: nat) returns (i: nat)
    requires |s.parties| == c.n && OutcomesSound(c, s, p, k) && p < c.n && q < c.n && q != p
    requires |Outcomes(s, p, k)| >= c.n - 1
    requires forall j :: 0 <= j < c.n - 1 ==> Outcomes(s, p, k)[j].Ok?
    ensures i < c.n - 1 && Outcomes(s, p, k)[i].value.0 == q
  {
    var out := Outcomes(s, p, k);
    var answerers: seq<nat> := seq(c.n - 1, i requires 0 <= i < c.n - 1 => out[i].value.0);
    assert forall j :: 0 <= j < c.n - 1 ==> answerers[j] == out[j].value.0;
    PigeonholeOthers(answerers, c.n, p);
    assert q in answerers;
    i :| 0 <= i < c.n - 1 && answerers[i] == q;
  }

  /** A round that ends well has an answer from q with the own hash. */
  lemma AnsweredAlike(c: Config, s: State, p: nat, q: nat)
    requires GoodConfig(c) && Sound(c, s) && Enabled(c, s, Finish(p)) && q < c.n && q != p
    requires Apply(c, s, Finish(p)).parties[p].phase.Collecting?
    ensures Answered(c, s, p, s.parties[p].phase.k, q, s.parties[p].phase.digest)
  {
    var x := s.parties[p];
    var out := Outcomes(s, p, x.phase.k);
    assert OutcomesSound(c, s, p, x.phase.k);
    assert Verdict(out[..c.n - 1], x.phase.digest, 0).None?;
    forall j | 0 <= j < c.n - 1 ensures out[j].Ok? && out[j].value.1 == x.phase.digest {
      assert out[..c.n - 1][j] == out[j];
    }
    var i := EveryoneAnswered(c, s, p, x.phase.k, q);
  }

  lemma FinishAgrees(c: Config, s: State, p: nat, q: nat)
    requires GoodConfig(c) && NeverEmpty(c.hash) && Sound(c, s) && Enabled(c, s, Finish(p))
    requires Apply(c, s, Finish(p)).parties[p].phase.Collecting?
    requires q in c.honest && q != p
    ensures s.parties[p].log != []
    ensures AgreesWith(c, s, p, s.parties[p].phase.k, q, s.parties[p].log[|s.parties[p].log| - 1])
  {
    var x := s.parties[p];
    assert WaitingSound(c, s, p);
    AnsweredAlike(c, s, p, q);
    var req := LinkReq(s, p, x.phase.k, q);
    var log := s.parties[q].log;
    var j :| 0 <= j < |log| && Holds(log[j], req) && x.phase.digest == c.hash(HashInput(log[j]));
    assert AgreesIn(c, s, req, j, x.log[|x.log| - 1]);
  }

  /** Agreement despite equivocation. In every run, when a round of party p ends
      well, the batch p hashed held its own broadcast k, and every other party
      that follows the gadget acknowledged that broadcast, with the payload p gave
      it, from a batch with the same digest: with the same hash input, unless those
      two inputs collide. */
  lemma Agreement(c: Config, states: seq<State>, steps: seq<Step>, i: nat, p: nat, q: nat)
    requires GoodConfig(c) && NeverEmpty(c.hash) && Run(c, states, steps)
    requires i < |steps| && steps[i] == Finish(p) && states[i + 1].parties[p].phase.Collecting?
    requires q in c.honest && q != p
    ensures var (x, k) := (states[i].parties[p], states[i].parties[p].phase.k);
      && x.log != []
      && Awaited(x.log[|x.log| - 1]) == Some(k)
      && AgreesWith(c, states[i], p, k, q, x.log[|x.log| - 1])
  {
    RunSound(c, states, steps, i);
    assert WaitingSound(c, states[i], p);
    FinishAgrees(c, states[i], p, q);
  }

  /** Two batches with one hash input that both hold one message from each sender
      agree on every sender's payload exactly when the lengths agree. */
  ghost predicate LiftsToVector(n: nat, a: seq<Msg>, b: seq<Msg>) {
    HashInput(a) == HashInput(b) && FullBatch(a, n) && FullBatch(b, n) ==> (SameVector(a, b) <==> SameLengths(a, b))
  }

  /** Agreement on the vector. The batch q acknowledged from has p's digest, and if
      the inputs do not collide and both batches hold one message from each sender,
      they agree on every sender's payload exactly when the lengths agree. */
  lemma VectorAgreement(c: Config, states: seq<State>, steps: seq<Step>, i: nat, p: nat, q: nat) returns (j: nat)
    requires GoodConfig(c) && NeverEmpty(c.hash) && Run(c, states, steps)
    requires i < |steps| && steps[i] == Finish(p) && states[i + 1].parties[p].phase.Collecting?
    requires q in c.honest && q != p
    ensures var (x, y) := (states[i].parties[p], states[i].parties[q]);
      && x.log != [] && j < |y.log|
      && x.phase.k < |x.subs| && |x.subs[x.phase.k]| == c.n
      && AgreesIn(c, states[i], LinkReq(states[i], p, x.phase.k, q), j, x.log[|x.log| - 1])
      && LiftsToVector(c.n, y.log[j], x.log[|x.log| - 1])
  {
    Agreement(c, states, steps, i, p, q);
    var (x, y) := (states[i].parties[p], states[i].parties[q]);
    var own := x.log[|x.log| - 1];
    j :| 0 <= j < |y.log| && AgreesIn(c, states[i], LinkReq(states[i], p, x.phase.k, q), j, own);
    Lifts(c.n, y.log[j], own);
  }

  lemma Lifts(n: nat, a: seq<Msg>, b: seq<Msg>)
    ensures LiftsToVector(n, a, b)
  {
    if HashInput(a) == HashInput(b) && FullBatch(a, n) && FullBatch(b, n) {
      EqualInputsLift(a, b, n);
    }
  }

  /** With a hash that has no collision at all, the inputs are the same. */
  lemma AgreementOnInput(c: Config, states: seq<State>, steps: seq<Step>, i: nat, p: nat, q: nat) returns (j: nat)
    requires GoodConfig(c) && NeverEmpty(c.hash) && CollisionFree(c.hash) && Run(c, states, steps)
    requires i < |steps| && steps[i] == Finish(p) && states[i + 1].parties[p].phase.Collecting?
    requires q in c.honest && q != p
    ensures var (x, y) := (states[i].parties[p], states[i].parties[q]);
      && x.log != [] && j < |y.log|
      && x.phase.k < |x.subs| && |x.subs[x.phase.k]| == c.n
      && Holds(y.log[j], LinkReq(states[i], p, x.phase.k, q))
      && HashInput(y.log[j]) == HashInput(x.log[|x.log| - 1])
  {
    j := VectorAgreement(c, states, steps, i, p, q);
    var (x, y) := (states[i].parties[p], states[i].parties[q]);
    assert !Collision(c.hash, HashInput(y.log[j]), HashInput(x.log[|x.log| - 1]));
  }

  // ---------- when a step crashes a party ----------

  /** Party p closes a batch with this step. */
  ghost predicate Closes(c: Config, s: State, a: Step, p: nat)
    requires |s.parties| == c.n && p < c.n
  {
    a.Take? && a.p == p && |s.parties[p].heap| + 1 == c.n
  }

  /** This step puts a message on party p's echo channel. */
  ghost predicate SendsTo(a: Step, p: nat) {
    match a
    case Submit(q, _) => q == p
    case Deliver(req) => req.to == p
    case _ => false
  }

  /** Whatever the run, gated or not: a step crashes a live party exactly when it
      sends into the party's full echo channel, or closes a batch that holds no
      message of the party's own. */
  lemma CrashesExactlyWhen(c: Config, s: State, a: Step, p: nat)
    requires |s.parties| == c.n && p < c.n && Enabled(c, s, a) && !s.parties[p].phase.Crashed?
    ensures Apply(c, s, a).parties[p].phase.Crashed? <==>
      || (SendsTo(a, p) && |s.parties[p].queue| >= c.n)
      || (Closes(c, s, a, p) && forall m :: m in s.parties[p].heap + [s.parties[p].queue[0]] ==> m.response.Incoming?)
  {
    if a.Take? && a.p == p {
      TakeCrashesExactlyWhen(c, s, a.order, p);
    } else {
      OtherCrashesExactlyWhen(c, s, a, p);
    }
  }

  /** Taking a message crashes on a closing batch without an own message. */
  lemma TakeCrashesExactlyWhen(c: Config, s: State, order: seq<Msg>, p: nat)
    requires |s.parties| == c.n && p < c.n && Enabled(c, s, Take(p, order)) && !s.parties[p].phase.Crashed?
    ensures Apply(c, s, Take(p, order)).parties[p].phase.Crashed? <==>
      && |s.parties[p].heap| + 1 == c.n
      && forall m :: m in s.parties[p].heap + [s.parties[p].queue[0]] ==> m.response.Incoming?
  {
    if |s.parties[p].heap| + 1 == c.n {
      var heap := s.parties[p].heap + [s.parties[p].queue[0]];
      DrainKeeps(heap, order);
      AwaitedExactly(order);
    }
  }

  /** Every other step crashes on a full echo channel alone. */
  lemma OtherCrashesExactlyWhen(c: Config, s: State, a: Step, p: nat)
    requires |s.parties| == c.n && p < c.n && Enabled(c, s, a) && !s.parties[p].phase.Crashed?
    requires !(a.Take? && a.p == p)
    ensures Apply(c, s, a).parties[p].phase.Crashed? <==> SendsTo(a, p) && |s.parties[p].queue| >= c.n
  {
  }
}
