/** A computation feeding its echo gadget does what the model of n gadgets assumes:
    a broadcast going out is a submission, one coming in is a delivery. */
module EchoFeeding {
  import opened Basics
  import opened PeerOrder
  import opened Messages
  import opened Coordination
  import opened Echo
  import opened EchoNetwork
  import Executions
  import opened RoutingIdentity

  /** The same messages, up to the names of the channels their answers travel on. */
  ghost predicate Mirrors(items: seq<Executions.EchoItem>, queue: seq<EchoNetwork.Msg>) {
    && |items| == |queue|
    && forall j :: 0 <= j < |items| ==>
         && items[j].sender == queue[j].sender && items[j].payload == queue[j].payload
         && (items[j].response.Incoming? <==> queue[j].response.Incoming?)
  }

  lemma MirrorsOneMore(items: seq<Executions.EchoItem>, queue: seq<EchoNetwork.Msg>, x: Executions.EchoItem,
                       m: EchoNetwork.Msg)
    requires Mirrors(items, queue)
    requires x.sender == m.sender && x.payload == m.payload && (x.response.Incoming? <==> m.response.Incoming?)
    ensures Mirrors(items + [x], queue + [m])
  {
  }

  function ToEveryone(n: nat, body: Bytes): (r: seq<Bytes>)
    ensures |r| == n && forall q :: 0 <= q < n ==> r[q] == body
  {
    seq(n, _ => body)
  }

  /** The execution of the party at place p, seen as a party of the network of gadgets. */
  ghost predicate Plays(c: Config, s: State, e: Executions.State, peers: seq<PeerId>, p: nat) {
    && |s.parties| == c.n == |peers| && Member(e, peers, p)
    && p in c.honest && s.parties[p].Alive()
    && Mirrors(e.echo, s.parties[p].queue)
  }

  /** The agent's broadcast is a submission with one payload on all links: it panics
      exactly together with it, and leaves the echo channel holding the same. */
  lemma BroadcastIsSubmission(c: Config, s: State, e: Executions.State, peers: seq<PeerId>, p: nat)
    requires Plays(c, s, e, peers, p)
    requires e.fromProtocol != [] && e.fromProtocol[0].to == Executions.ToAll
    ensures var a := Submit(p, ToEveryone(c.n, e.fromProtocol[0].body));
      && Enabled(c, s, a)
      && (Executions.Outward(e).None? <==> Apply(c, s, a).parties[p].phase.Crashed?)
      && (Executions.Outward(e).Some? ==> Mirrors(Executions.Outward(e).value.echo, Apply(c, s, a).parties[p].queue))
  {
    var body := e.fromProtocol[0].body;
    if |e.echo| < c.n {
      MirrorsOneMore(e.echo, s.parties[p].queue, EchoMessage(p + 1, body, Outgoing(e.nextChan)),
                     Own(p, |s.parties[p].subs|, body));
    }
  }

  /** Its copies are the submission's links: one for each other party, on which the
      same payload is then in flight. */
  lemma CopiesAreLinks<M>(c: Config, s: State, e: Executions.State, peers: seq<PeerId>, p: nat,
                          m: RoutingIdentity.Msg<M>, ser: M -> Bytes, sent: nat, q: nat)
    requires Plays(c, s, e, peers, p) && Next(e, m, ser, sent) && m.receiver.None? && q < c.n && q != p
    ensures var wires := Wires(LastSend(e));
      exists j :: 0 <= j < |wires| && wires[j].0 == peers[q] && wires[j].1.payload == ser(m.body)
        && wires[j].1.isBroadcast
    ensures Req(p, q, |s.parties[p].subs|, ser(m.body))
         in Apply(c, s, Submit(p, ToEveryone(c.n, ser(m.body)))).flight
  {
    Addressees(e, peers, p, m, ser, sent);
    var wires := Wires(LastSend(e));
    var j :| 0 <= j < |wires| && wires[j].0 == peers[q];
    CopyCarries(e, peers, p, q, m, ser, sent, j);
    var k := |s.parties[p].subs|;
    assert Req(p, q, k, ser(m.body)) in Links(c.n, p, k, ToEveryone(c.n, ser(m.body)));
  }

  /** A tagged broadcast from place p that reaches the execution at place q is the
      delivery of p's request: it panics exactly together with it, or when the agent
      lags behind, and leaves the echo channel holding the same. */
  lemma ArrivalIsDelivery(c: Config, s: State, f: Executions.State, peers: seq<PeerId>, q: nat, req: Req)
    requires Plays(c, s, f, peers, q) && req in s.flight && req.to == q
    requires f.fromNetwork != [] && f.fromNetwork[0].isBroadcast
    requires f.fromNetwork[0].index == req.from && f.fromNetwork[0].payload == req.payload
    ensures Enabled(c, s, Deliver(req))
    ensures Executions.Inward(f).None? <==>
      Apply(c, s, Deliver(req)).parties[q].phase.Crashed? || |f.toProtocol| >= Executions.AgentCapacity(f)
    ensures Executions.Inward(f).Some? ==>
      Mirrors(Executions.Inward(f).value.echo, Apply(c, s, Deliver(req)).parties[q].queue)
  {
    if |f.echo| < c.n {
      MirrorsOneMore(f.echo, s.parties[q].queue, EchoMessage(req.from + 1, req.payload, Incoming(f.fromNetwork[0].tx)),
                     Received(req));
    }
  }
}
