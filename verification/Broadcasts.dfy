/** Bookkeeping of requests over the inner request-response behaviour, which is
    known by its contract only: request ids are fresh within a protocol, an answer
    comes from the request's target, an inbound request ends once. */
module Broadcasts {
  import opened Basics

  type Protocol = string
  type Peer = Bytes
  type ChanId = nat

  datatype Key = Key(protocol: Protocol, id: nat)

  datatype RequestFailure = NotConnected | UnknownProtocol | Refused | Obsolete | Network

  type Answer = Result<(Peer, Bytes), RequestFailure>

  // ---------- outbound ----------

  /** A request handed to the inner behaviour: which send it belongs to, and where its outcome goes. */
  datatype Pending = Pending(ticket: nat, chan: Option<ChanId>)

  /** One attempt to put an outcome on a response channel. */
  datatype Attempt = Attempt(ticket: nat, chan: ChanId, answer: Answer)

  datatype Send = Send(target: Peer, chan: Option<ChanId>)

  /** `sends` is the history of all sends; a ticket is a place in it. */
  datatype Outbound = Outbound(pending: map<Key, Pending>, attempts: seq<Attempt>, sends: seq<Send>)

  function Tried(attempts: seq<Attempt>, ticket: nat, chan: Option<ChanId>, answer: Answer): seq<Attempt> {
    match chan case Some(c) => attempts + [Attempt(ticket, c, answer)] case None => attempts
  }

  /** One send. `registered`: the protocol is known. `reachable`: connected, or allowed to connect. */
  function SendOne(o: Outbound, target: Peer, key: Key, chan: Option<ChanId>, registered: bool,
                   reachable: bool): Outbound {
    var ticket := |o.sends|;
    var o' := o.(sends := o.sends + [Send(target, chan)]);
    if !registered then o'.(attempts := Tried(o.attempts, ticket, chan, Err(UnknownProtocol)))
    else if !reachable then o'.(attempts := Tried(o.attempts, ticket, chan, Err(NotConnected)))
    else o'.(pending := o.pending[key := Pending(ticket, chan)])
  }

  /** The outcome of a pending request; outcomes of unknown requests are ignored. */
  function Settle(o: Outbound, key: Key, answer: Answer): Outbound {
    if key !in o.pending then o else
    o.(pending := o.pending - {key}, attempts := Tried(o.attempts, o.pending[key].ticket, o.pending[key].chan, answer))
  }

  datatype OutStep =
    | Sending(target: Peer, key: Key, chan: Option<ChanId>, registered: bool, reachable: bool)
    | Response(rkey: Key, peer: Peer, response: Option<Bytes>)
    | OutboundFailure(fkey: Key)

  function OutApply(o: Outbound, a: OutStep): Outbound {
    match a
    case Sending(target, key, chan, registered, reachable) => SendOne(o, target, key, chan, registered, reachable)
    case Response(key, peer, Some(payload)) => Settle(o, key, Ok((peer, payload)))
    case Response(key, peer, None) => Settle(o, key, Err(Refused))
    case OutboundFailure(key) => Settle(o, key, Err(Network))
  }

  /** What the inner behaviour promises about a step. */
  ghost predicate OutContract(o: Outbound, a: OutStep) {
    match a
    case Sending(_, key, _, registered, reachable) => registered && reachable ==> key !in o.pending
    case Response(key, peer, _) =>
      key in o.pending && o.pending[key].ticket < |o.sends| ==> peer == o.sends[o.pending[key].ticket].target
    case OutboundFailure(_) => true
  }

  ghost predicate IsPending(o: Outbound, ticket: nat) {
    exists key :: key in o.pending && o.pending[key].ticket == ticket
  }

  ghost predicate IsAttempted(o: Outbound, ticket: nat) {
    exists i :: 0 <= i < |o.attempts| && o.attempts[i].ticket == ticket
  }

  /** A pending request carries its send's channel, and no two belong to one send. */
  ghost predicate PendingSound(o: Outbound) {
    && (forall key :: key in o.pending ==>
          o.pending[key].ticket < |o.sends| && o.pending[key].chan == o.sends[o.pending[key].ticket].chan)
    && (forall k, l :: k in o.pending && l in o.pending && o.pending[k].ticket == o.pending[l].ticket ==> k == l)
  }

  /** An outcome went to its send's channel, and an answer came from its target. */
  ghost predicate AttemptSound(o: Outbound, x: Attempt) {
    && x.ticket < |o.sends|
    && o.sends[x.ticket].chan == Some(x.chan)
    && (x.answer.Ok? ==> x.answer.value.0 == o.sends[x.ticket].target)
  }

  ghost predicate AttemptsSound(o: Outbound) {
    forall i :: 0 <= i < |o.attempts| ==> AttemptSound(o, o.attempts[i])
  }

  ghost predicate OncePerTicket(attempts: seq<Attempt>) {
    forall i, j :: 0 <= i < j < |attempts| ==> attempts[i].ticket != attempts[j].ticket
  }

  /** Nothing with an outcome is still pending. */
  ghost predicate Apart(o: Outbound) {
    forall i, key :: 0 <= i < |o.attempts| && key in o.pending ==> o.attempts[i].ticket != o.pending[key].ticket
  }

  ghost predicate NoneLost(o: Outbound) {
    forall t :: 0 <= t < |o.sends| && o.sends[t].chan.Some? ==> IsPending(o, t) || IsAttempted(o, t)
  }

  /** Every send that wants an outcome is pending or has had its one attempt, never both. */
  ghost predicate Conserved(o: Outbound) {
    PendingSound(o) && AttemptsSound(o) && OncePerTicket(o.attempts) && Apart(o) && NoneLost(o)
  }

  lemma SendLosesNone(o: Outbound, target: Peer, key: Key, chan: Option<ChanId>, registered: bool, reachable: bool)
    requires NoneLost(o) && (registered && reachable ==> key !in o.pending)
    ensures NoneLost(SendOne(o, target, key, chan, registered, reachable))
  {
    var n := |o.sends|;
    var o' := SendOne(o, target, key, chan, registered, reachable);
    forall t | 0 <= t <= n && o'.sends[t].chan.Some? ensures IsPending(o', t) || IsAttempted(o', t) {
      if t < n {
        assert o.sends[t].chan.Some?;
        if IsPending(o, t) {
          var k :| k in o.pending && o.pending[k].ticket == t;
          assert o'.pending[k].ticket == t;
        } else {
          var i :| 0 <= i < |o.attempts| && o.attempts[i].ticket == t;
          assert o'.attempts[i].ticket == t;
        }
      } else if registered && reachable {
        assert o'.pending[key].ticket == n;
      } else {
        assert o'.attempts[|o.attempts|].ticket == n;
      }
    }
  }

  /** What a later send adds to the history leaves earlier outcomes as they were. */
  lemma LaterSend(o: Outbound, o': Outbound, s: Send)
    requires AttemptsSound(o) && o'.sends == o.sends + [s] && o.attempts <= o'.attempts
    ensures forall i :: 0 <= i < |o.attempts| ==> AttemptSound(o', o'.attempts[i]) && o'.attempts[i].ticket < |o.sends|
  {
    forall i | 0 <= i < |o.attempts| ensures AttemptSound(o', o'.attempts[i]) && o'.attempts[i].ticket < |o.sends| {
      assert AttemptSound(o, o.attempts[i]) && o'.attempts[i] == o.attempts[i];
    }
  }

  lemma SendPends(o: Outbound, target: Peer, key: Key, chan: Option<ChanId>)
    requires PendingSound(o) && AttemptsSound(o) && OncePerTicket(o.attempts) && Apart(o) && key !in o.pending
    ensures var o' := SendOne(o, target, key, chan, true, true);
      PendingSound(o') && AttemptsSound(o') && OncePerTicket(o'.attempts) && Apart(o')
  {
    var o' := SendOne(o, target, key, chan, true, true);
    LaterSend(o, o', Send(target, chan));
  }

  lemma SendFailsAtOnce(o: Outbound, target: Peer, key: Key, chan: Option<ChanId>, registered: bool, reachable: bool)
    requires PendingSound(o) && AttemptsSound(o) && OncePerTicket(o.attempts) && Apart(o) && !(registered && reachable)
    ensures var o' := SendOne(o, target, key, chan, registered, reachable);
      PendingSound(o') && AttemptsSound(o') && OncePerTicket(o'.attempts) && Apart(o')
  {
    var o' := SendOne(o, target, key, chan, registered, reachable);
    LaterSend(o, o', Send(target, chan));
  }

  lemma SendConserves(o: Outbound, target: Peer, key: Key, chan: Option<ChanId>, registered: bool, reachable: bool)
    requires Conserved(o) && (registered && reachable ==> key !in o.pending)
    ensures Conserved(SendOne(o, target, key, chan, registered, reachable))
  {
    SendLosesNone(o, target, key, chan, registered, reachable);
    if registered && reachable {
      SendPends(o, target, key, chan);
    } else {
      SendFailsAtOnce(o, target, key, chan, registered, reachable);
    }
  }

  lemma SettleLosesNone(o: Outbound, key: Key, answer: Answer)
    requires NoneLost(o) && PendingSound(o) && key in o.pending
    ensures NoneLost(Settle(o, key, answer))
  {
    var o' := Settle(o, key, answer);
    forall t | 0 <= t < |o.sends| && o.sends[t].chan.Some? ensures IsPending(o', t) || IsAttempted(o', t) {
      if t == o.pending[key].ticket {
        assert o'.attempts[|o.attempts|].ticket == t;
      } else if IsPending(o, t) {
        var k :| k in o.pending && o.pending[k].ticket == t;
        assert k in o'.pending;
      } else {
        var i :| 0 <= i < |o.attempts| && o.attempts[i].ticket == t;
        assert o'.attempts[i].ticket == t;
      }
    }
  }

  lemma SettleSound(o: Outbound, key: Key, answer: Answer)
    requires PendingSound(o) && AttemptsSound(o) && OncePerTicket(o.attempts) && Apart(o) && key in o.pending
    requires answer.Ok? ==> answer.value.0 == o.sends[o.pending[key].ticket].target
    ensures var o' := Settle(o, key, answer);
      PendingSound(o') && AttemptsSound(o') && OncePerTicket(o'.attempts) && Apart(o')
  {
    var o' := Settle(o, key, answer);
    assert forall k :: k in o'.pending ==> k in o.pending && k != key && o'.pending[k] == o.pending[k];
    forall i | 0 <= i < |o'.attempts| ensures AttemptSound(o', o'.attempts[i]) {
      if i < |o.attempts| {
        assert AttemptSound(o, o.attempts[i]);
      }
    }
  }

  lemma SettleConserves(o: Outbound, key: Key, answer: Answer)
    requires Conserved(o)
    requires key in o.pending && answer.Ok? ==> answer.value.0 == o.sends[o.pending[key].ticket].target
    ensures Conserved(Settle(o, key, answer))
  {
    if key in o.pending {
      SettleLosesNone(o, key, answer);
      SettleSound(o, key, answer);
    }
  }

  ghost predicate OutRun(os: seq<Outbound>, steps: seq<OutStep>) {
    && |os| == |steps| + 1
    && os[0] == Outbound(map[], [], [])
    && forall i :: 0 <= i < |steps| ==> OutContract(os[i], steps[i]) && os[i + 1] == OutApply(os[i], steps[i])
  }

  /** Outbound conservation over every run. */
  lemma {:induction false} OutboundConservation(os: seq<Outbound>, steps: seq<OutStep>, i: nat)
    requires OutRun(os, steps) && i < |os|
    ensures Conserved(os[i])
  {
    if i == 0 {
    } else {
      OutboundConservation(os, steps, i - 1);
      match steps[i - 1] {
        case Sending(target, key, chan, registered, reachable) =>
          SendConserves(os[i - 1], target, key, chan, registered, reachable);
        case Response(key, peer, Some(payload)) => SettleConserves(os[i - 1], key, Ok((peer, payload)));
        case Response(key, peer, None) => SettleConserves(os[i - 1], key, Err(Refused));
        case OutboundFailure(key) => SettleConserves(os[i - 1], key, Err(Network));
      }
    }
  }

  // ---------- where outcomes come from ----------

  ghost predicate Pends(o: Outbound, key: Key, p: Pending) {
    key in o.pending && o.pending[key] == p
  }

  /** The step that puts this outcome on its channel: a payload for a pending request
      is its answer, a response without one a refusal, and a send that is not let
      out fails at once. */
  ghost predicate Causes(o: Outbound, a: OutStep, x: Attempt) {
    var p := Pending(x.ticket, Some(x.chan));
    match x.answer
    case Ok((peer, payload)) => a.Response? && a.peer == peer && a.response == Some(payload) && Pends(o, a.rkey, p)
    case Err(Refused) => a.Response? && a.response == None && Pends(o, a.rkey, p)
    case Err(Network) => a.OutboundFailure? && Pends(o, a.fkey, p)
    case Err(UnknownProtocol) => a.Sending? && !a.registered && p == Pending(|o.sends|, a.chan)
    case Err(NotConnected) => a.Sending? && a.registered && !a.reachable && p == Pending(|o.sends|, a.chan)
    case Err(Obsolete) => false
  }

  lemma StepCauses(o: Outbound, a: OutStep, x: Attempt)
    ensures x in OutApply(o, a).attempts <==> x in o.attempts || Causes(o, a, x)
  {
    var t := OutApply(o, a);
    match a
    case Sending(_, _, chan, registered, reachable) =>
      assert chan.Some? && !(registered && reachable) ==> t.attempts[|o.attempts|] in t.attempts;
    case Response(key, _, _) =>
      assert key in o.pending && o.pending[key].chan.Some? ==> t.attempts[|o.attempts|] in t.attempts;
    case OutboundFailure(key) =>
      assert key in o.pending && o.pending[key].chan.Some? ==> t.attempts[|o.attempts|] in t.attempts;
  }

  /** In every run an outcome has been put on a channel if and only if an earlier step
      called for that very outcome, with that payload or failure. */
  lemma {:induction false} OutcomeOrigins(os: seq<Outbound>, steps: seq<OutStep>, i: nat, x: Attempt)
    requires OutRun(os, steps) && i < |os|
    ensures x in os[i].attempts <==> exists j :: 0 <= j < i && Causes(os[j], steps[j], x)
  {
    if i == 0 {
    } else {
      OutcomeOrigins(os, steps, i - 1, x);
      StepCauses(os[i - 1], steps[i - 1], x);
    }
  }

  /** The step that hands the inner behaviour this request. */
  ghost predicate Requests(o: Outbound, a: OutStep, key: Key, p: Pending) {
    && a.Sending? && a.key == key && a.registered && a.reachable
    && p == Pending(|o.sends|, a.chan)
  }

  ghost predicate Settles(a: OutStep, key: Key) {
    (a.Response? && a.rkey == key) || (a.OutboundFailure? && a.fkey == key)
  }

  /** The request handed over at step j, not settled before i. */
  ghost predicate OpenSince(os: seq<Outbound>, steps: seq<OutStep>, j: nat, i: nat, key: Key, p: Pending)
    requires j < i < |os| && |os| == |steps| + 1
  {
    Requests(os[j], steps[j], key, p) && forall s :: j < s < i ==> !Settles(steps[s], key)
  }

  lemma StepPends(o: Outbound, a: OutStep, key: Key, p: Pending)
    requires OutContract(o, a)
    ensures Pends(OutApply(o, a), key, p) <==> Requests(o, a, key, p) || (Pends(o, key, p) && !Settles(a, key))
  {
  }

  /** In every run a request is pending if and only if it was handed over, under that
      key and for that channel, and no response or failure has come for it since. */
  lemma {:induction false} PendingOrigins(os: seq<Outbound>, steps: seq<OutStep>, i: nat, key: Key, p: Pending)
    requires OutRun(os, steps) && i < |os|
    ensures Pends(os[i], key, p) <==> exists j: nat :: j < i && OpenSince(os, steps, j, i, key, p)
  {
    if i == 0 {
    } else {
      PendingOrigins(os, steps, i - 1, key, p);
      StepPends(os[i - 1], steps[i - 1], key, p);
      if Requests(os[i - 1], steps[i - 1], key, p) {
        assert OpenSince(os, steps, i - 1, i, key, p);
      } else if Pends(os[i], key, p) {
        var j: nat :| j < i - 1 && OpenSince(os, steps, j, i - 1, key, p);
        assert OpenSince(os, steps, j, i, key, p);
      }
      if j: nat :| j < i - 1 && OpenSince(os, steps, j, i, key, p) {
        assert OpenSince(os, steps, j, i - 1, key, p) && !Settles(steps[i - 1], key);
      }
    }
  }

  /** The outcomes that were put on channel c, in order. */
  function On(attempts: seq<Attempt>, c: ChanId): (r: seq<Attempt>)
    ensures forall x :: x in r <==> x in attempts && x.chan == c
  {
    if attempts == [] then []
    else (if attempts[0].chan == c then [attempts[0]] else []) + On(attempts[1..], c)
  }

  function TicketsOf(attempts: seq<Attempt>): (r: seq<nat>)
    ensures |r| == |attempts| && forall i :: 0 <= i < |r| ==> r[i] == attempts[i].ticket
  {
    seq(|attempts|, i requires 0 <= i < |attempts| => attempts[i].ticket)
  }

  lemma {:induction false} OnKeepsDistinct(attempts: seq<Attempt>, c: ChanId)
    requires OncePerTicket(attempts)
    ensures OncePerTicket(On(attempts, c))
  {
    if attempts == [] {
    } else {
      OnKeepsDistinct(attempts[1..], c);
      forall x | x in On(attempts[1..], c) ensures x.ticket != attempts[0].ticket {
        var j :| 0 <= j < |attempts[1..]| && attempts[1..][j] == x;
        assert attempts[j + 1] == x;
      }
      AheadOfOthers(attempts[0], On(attempts[1..], c));
    }
  }

  lemma AheadOfOthers(first: Attempt, rest: seq<Attempt>)
    requires OncePerTicket(rest) && forall x :: x in rest ==> x.ticket != first.ticket
    ensures OncePerTicket([first] + rest) && OncePerTicket([] + rest)
  {
    assert [] + rest == rest;
  }

  /** Channel c was used for exactly the sends from `first`, one to each of the targets. */
  ghost predicate UsedFor(o: Outbound, c: ChanId, first: nat, targets: seq<Peer>) {
    && first + |targets| <= |o.sends|
    && (forall t :: 0 <= t < |o.sends| ==> (o.sends[t].chan == Some(c) <==> first <= t < first + |targets|))
    && (forall i :: 0 <= i < |targets| ==> o.sends[first + i].target == targets[i])
  }

  ghost predicate Settled(o: Outbound, c: ChanId) {
    forall key :: key in o.pending ==> o.pending[key].chan != Some(c)
  }

  lemma AnswerFromTarget(o: Outbound, c: ChanId, first: nat, targets: seq<Peer>, x: Attempt)
    requires AttemptsSound(o) && UsedFor(o, c, first, targets)
    requires x in On(o.attempts, c)
    ensures first <= x.ticket < first + |targets|
    ensures x.answer.Ok? ==> x.answer.value.0 == targets[x.ticket - first]
  {
    var i :| 0 <= i < |o.attempts| && o.attempts[i] == x;
    assert AttemptSound(o, o.attempts[i]);
  }

  lemma OnTickets(o: Outbound, c: ChanId, first: nat, targets: seq<Peer>)
    requires Conserved(o) && UsedFor(o, c, first, targets) && Settled(o, c)
    ensures var tickets := TicketsOf(On(o.attempts, c));
      && Distinct(tickets) && |tickets| == |targets|
      && (forall t :: t in tickets <==> first <= t < first + |targets|)
  {
    var on := On(o.attempts, c);
    var tickets := TicketsOf(on);
    OnKeepsDistinct(o.attempts, c);
    assert Distinct(tickets);
    forall t | first <= t < first + |targets| ensures t in tickets {
      assert o.sends[t].chan == Some(c);
      assert !IsPending(o, t);
      var i :| 0 <= i < |o.attempts| && o.attempts[i].ticket == t;
      assert o.attempts[i] in on;
      var j :| 0 <= j < |on| && on[j] == o.attempts[i];
      assert tickets[j] == t;
    }
    forall t | t in tickets ensures first <= t < first + |targets| {
      var j :| 0 <= j < |tickets| && tickets[j] == t;
      AnswerFromTarget(o, c, first, targets, on[j]);
    }
    TicketRange(tickets, first, |targets|);
  }

  function Offset(tickets: seq<nat>, i: nat, first: nat): nat
    requires i < |tickets| && forall t :: t in tickets ==> first <= t
  {
    assert tickets[i] in tickets;
    tickets[i] - first
  }

  lemma TicketRange(tickets: seq<nat>, first: nat, k: nat)
    requires Distinct(tickets) && forall t :: t in tickets <==> first <= t < first + k
    ensures |tickets| == k
  {
    var shifted: seq<nat> := seq(|tickets|, i requires 0 <= i < |tickets| => Offset(tickets, i, first));
    DistinctCount(shifted);
    forall x: nat ensures x in Elems(shifted) <==> x in Range(k) {
      if x < k {
        assert x + first in tickets;
        var i :| 0 <= i < |tickets| && tickets[i] == x + first;
        assert shifted[i] == x;
      }
      if x in shifted {
        var i :| 0 <= i < |shifted| && shifted[i] == x;
        assert tickets[i] in tickets;
      }
    }
    assert Elems(shifted) == Range(k);
  }

  lemma AnswersFromDistinctTargets(o: Outbound, c: ChanId, first: nat, targets: seq<Peer>)
    requires AttemptsSound(o) && UsedFor(o, c, first, targets) && Distinct(targets) && OncePerTicket(On(o.attempts, c))
    ensures var on := On(o.attempts, c);
      && (forall i :: 0 <= i < |on| && on[i].answer.Ok? ==> on[i].answer.value.0 in targets)
      && (forall i, j :: 0 <= i < j < |on| && on[i].answer.Ok? && on[j].answer.Ok? ==>
            on[i].answer.value.0 != on[j].answer.value.0)
  {
    var on := On(o.attempts, c);
    forall i | 0 <= i < |on| && on[i].answer.Ok? ensures on[i].answer.value.0 in targets {
      AnswerFromTarget(o, c, first, targets, on[i]);
    }
    forall i, j | 0 <= i < j < |on| && on[i].answer.Ok? && on[j].answer.Ok?
      ensures on[i].answer.value.0 != on[j].answer.value.0
    {
      AnswerFromTarget(o, c, first, targets, on[i]);
      AnswerFromTarget(o, c, first, targets, on[j]);
    }
  }

  /** Once none of k requests on a channel is pending, the channel has seen exactly
      k outcomes, and when they are all answers, they come from k distinct
      targets. This is what entitles the echo gadget to wait for n - 1. */
  lemma OneOutcomePerTarget(o: Outbound, c: ChanId, first: nat, targets: seq<Peer>)
    requires Conserved(o) && UsedFor(o, c, first, targets) && Settled(o, c) && Distinct(targets)
    ensures var on := On(o.attempts, c);
      && |on| == |targets|
      && (forall i :: 0 <= i < |on| && on[i].answer.Ok? ==> on[i].answer.value.0 in targets)
      && (forall i, j :: 0 <= i < j < |on| && on[i].answer.Ok? && on[j].answer.Ok? ==>
            on[i].answer.value.0 != on[j].answer.value.0)
  {
    OnTickets(o, c, first, targets);
    OnKeepsDistinct(o.attempts, c);
    AnswersFromDistinctTargets(o, c, first, targets);
  }

  lemma {:induction false} UsedForStays(os: seq<Outbound>, steps: seq<OutStep>, i: nat, j: nat, c: ChanId, first: nat,
                                        targets: seq<Peer>)
    requires OutRun(os, steps) && i <= j < |os|
    requires UsedFor(os[i], c, first, targets)
    requires forall s :: i <= s < j && steps[s].Sending? ==> steps[s].chan != Some(c)
    ensures UsedFor(os[j], c, first, targets)
  {
    if i == j {
    } else {
      UsedForStays(os, steps, i, j - 1, c, first, targets);
    }
  }

  /** In every run: k requests to distinct targets on a channel of their own. At any
      later time when none of them is pending, the channel has seen k outcomes, and
      the answers among them come from distinct targets. */
  lemma BroadcastOutcomes(os: seq<Outbound>, steps: seq<OutStep>, i: nat, j: nat, c: ChanId, first: nat,
                          targets: seq<Peer>)
    requires OutRun(os, steps) && i <= j < |os|
    requires UsedFor(os[i], c, first, targets) && Distinct(targets)
    requires forall s :: i <= s < j && steps[s].Sending? ==> steps[s].chan != Some(c)
    requires Settled(os[j], c)
    ensures var on := On(os[j].attempts, c);
      && |on| == |targets|
      && (forall a :: 0 <= a < |on| && on[a].answer.Ok? ==> on[a].answer.value.0 in targets)
      && (forall a, b :: 0 <= a < b < |on| && on[a].answer.Ok? && on[b].answer.Ok? ==>
            on[a].answer.value.0 != on[b].answer.value.0)
  {
    UsedForStays(os, steps, i, j, c, first, targets);
    OutboundConservation(os, steps, j);
    OneOutcomePerTarget(os[j], c, first, targets);
  }

  /** One send per target, all on the same channel. */
  function SendAll(o: Outbound, protocol: Protocol, targets: seq<Peer>, ids: seq<nat>, connected: seq<bool>,
                   chan: Option<ChanId>, registered: bool, connect: bool): Outbound
    requires |targets| <= |ids| && |targets| <= |connected|
  {
    if targets == [] then o else
    var k := |targets| - 1;
    SendOne(SendAll(o, protocol, targets[..k], ids, connected, chan, registered, connect),
            targets[k], Key(protocol, ids[k]), chan, registered, connected[k] || connect)
  }

  /** Whatever pends that did not before was given one of the first k ids. */
  ghost predicate NewIn(o: Outbound, o': Outbound, protocol: Protocol, ids: seq<nat>, k: nat)
    requires k <= |ids|
  {
    forall key :: key in o'.pending && key !in o.pending ==> key.protocol == protocol && key.id in ids[..k]
  }

  lemma {:induction false} SendAllConserves(o: Outbound, protocol: Protocol, targets: seq<Peer>, ids: seq<nat>,
                                            connected: seq<bool>, chan: Option<ChanId>, registered: bool, connect: bool)
    requires |targets| <= |ids| && |targets| <= |connected|
    requires Conserved(o) && Distinct(ids) && forall i :: 0 <= i < |ids| ==> Key(protocol, ids[i]) !in o.pending
    ensures var o' := SendAll(o, protocol, targets, ids, connected, chan, registered, connect);
      Conserved(o') && NewIn(o, o', protocol, ids, |targets|)
  {
    if targets == [] {
    } else {
      var k := |targets| - 1;
      SendAllConserves(o, protocol, targets[..k], ids, connected, chan, registered, connect);
      var o1 := SendAll(o, protocol, targets[..k], ids, connected, chan, registered, connect);
      assert ids[k] !in ids[..k];
      SendConserves(o1, targets[k], Key(protocol, ids[k]), chan, registered, connected[k] || connect);
      assert ids[..k + 1] == ids[..k] + [ids[k]];
    }
  }

  lemma {:induction false} SendAllUses(o: Outbound, protocol: Protocol, targets: seq<Peer>, ids: seq<nat>,
                                       connected: seq<bool>, c: ChanId, registered: bool, connect: bool)
    requires |targets| <= |ids| && |targets| <= |connected|
    requires forall t :: 0 <= t < |o.sends| ==> o.sends[t].chan != Some(c)
    ensures var o' := SendAll(o, protocol, targets, ids, connected, Some(c), registered, connect);
      UsedFor(o', c, |o.sends|, targets) && |o'.sends| == |o.sends| + |targets|
  {
    if targets == [] {
    } else {
      var k := |targets| - 1;
      SendAllUses(o, protocol, targets[..k], ids, connected, c, registered, connect);
    }
  }

  /** What a multicast does for its j-th target: a request under the j-th id, or one
      failure at once, in the order of the targets. */
  lemma {:induction false} SendAllFates(o: Outbound, protocol: Protocol, targets: seq<Peer>, ids: seq<nat>,
                                        connected: seq<bool>, c: ChanId, registered: bool, connect: bool, j: nat)
    requires j < |targets| <= |ids| && |targets| <= |connected| && Distinct(ids)
    ensures var (o', t) := (SendAll(o, protocol, targets, ids, connected, Some(c), registered, connect), |o.sends| + j);
      && |o'.sends| == |o.sends| + |targets| && o'.sends[t] == Send(targets[j], Some(c))
      && (registered && (connected[j] || connect) ==> Pends(o', Key(protocol, ids[j]), Pending(t, Some(c))))
      && (!registered ==> Attempt(t, c, Err(UnknownProtocol)) in o'.attempts)
      && (registered && !connected[j] && !connect ==> Attempt(t, c, Err(NotConnected)) in o'.attempts)
  {
    var k := |targets| - 1;
    SendAllCounts(o, protocol, targets[..k], ids, connected, Some(c), registered, connect);
    if j < k {
      SendAllFates(o, protocol, targets[..k], ids, connected, c, registered, connect, j);
    }
  }

  lemma {:induction false} SendAllCounts(o: Outbound, protocol: Protocol, targets: seq<Peer>, ids: seq<nat>,
                                         connected: seq<bool>, chan: Option<ChanId>, registered: bool, connect: bool)
    requires |targets| <= |ids| && |targets| <= |connected|
    ensures |SendAll(o, protocol, targets, ids, connected, chan, registered, connect).sends| == |o.sends| + |targets|
  {
    if targets == [] {
    } else {
      SendAllCounts(o, protocol, targets[..|targets| - 1], ids, connected, chan, registered, connect);
    }
  }

  // ---------- inbound ----------

  /** `arrivals` and `feedback` are the tables; `fired` the notifications sent.
      The rest is history: requests the inner behaviour still has open, requests
      seen, requests answered, notification channels handed in. */
  datatype Inbound = Inbound(arrivals: set<Key>, feedback: map<Key, nat>, fired: seq<nat>,
                             open: set<Key>, seen: set<Key>, answered: set<Key>, handed: set<nat>)

  datatype InStep =
    | Arrive(akey: Key)
    | Reply(key: Key, ok: bool, sent: bool, notify: Option<nat>)
    | Dropped(dkey: Key)
    | ResponseSent(skey: Key)
    | InboundFailure(ikey: Key)

  ghost predicate InContract(b: Inbound, a: InStep) {
    match a
    case Arrive(key) => key !in b.seen
    case Reply(key, _, sent, notify) =>
      key in b.seen && key !in b.answered && (sent ==> key in b.open) && (notify.Some? ==> notify.value !in b.handed)
    case Dropped(key) => key in b.seen && key !in b.answered
    case ResponseSent(key) => key in b.open
    case InboundFailure(key) => key in b.open
  }

  /** None is the panic on a response sent for a request without an arrival time. */
  function InApply(b: Inbound, a: InStep): Option<Inbound> {
    match a
    case Arrive(key) => Some(b.(arrivals := b.arrivals + {key}, open := b.open + {key}, seen := b.seen + {key}))
    case Reply(key, ok, sent, notify) =>
      var b' := b.(answered := b.answered + {key}, handed := b.handed + if notify.Some? then {notify.value} else {});
      Some(if ok && sent && notify.Some? then b'.(feedback := b.feedback[key := notify.value]) else b')
    case Dropped(key) => Some(b.(answered := b.answered + {key}))
    case ResponseSent(key) =>
      if key !in b.arrivals then None else
      Some(b.(arrivals := b.arrivals - {key}, feedback := b.feedback - {key}, open := b.open - {key},
              fired := if key in b.feedback then b.fired + [b.feedback[key]] else b.fired))
    case InboundFailure(key) =>
      Some(b.(arrivals := b.arrivals - {key}, feedback := b.feedback - {key}, open := b.open - {key}))
  }

  ghost predicate Booked(b: Inbound) {
    && b.arrivals == b.open && b.open <= b.seen && b.answered <= b.seen
    && b.feedback.Keys <= b.arrivals * b.answered
    && (forall k :: k in b.feedback ==> b.feedback[k] in b.handed && b.feedback[k] !in b.fired)
    && (forall k, l :: k in b.feedback && l in b.feedback && b.feedback[k] == b.feedback[l] ==> k == l)
    && (forall x :: x in b.fired ==> x in b.handed)
    && Distinct(b.fired)
  }

  lemma StepBooked(b: Inbound, a: InStep)
    requires Booked(b) && InContract(b, a)
    ensures InApply(b, a).Some? && Booked(InApply(b, a).value)
  {
    var b' := InApply(b, a).value;
    if a.ResponseSent? && a.skey in b.feedback {
      assert b'.fired == b.fired + [b.feedback[a.skey]];
    }
  }

  ghost predicate InRun(bs: seq<Inbound>, steps: seq<InStep>) {
    && |bs| == |steps| + 1
    && bs[0] == Inbound({}, map[], [], {}, {}, {}, {})
    && forall i :: 0 <= i < |steps| ==> InContract(bs[i], steps[i]) && InApply(bs[i], steps[i]) == Some(bs[i + 1])
  }

  /** Inbound bookkeeping over every run: notification keys lie within the arrival
      keys, no notification is sent twice, and whatever the inner behaviour does
      next, the arrival time it relies on is there. */
  lemma {:induction false} InboundBookkeeping(bs: seq<Inbound>, steps: seq<InStep>, i: nat)
    requires InRun(bs, steps) && i < |bs|
    ensures bs[i].feedback.Keys <= bs[i].arrivals && Distinct(bs[i].fired)
    ensures forall a :: InContract(bs[i], a) ==> InApply(bs[i], a).Some?
    ensures Booked(bs[i])
  {
    if i == 0 {
    } else {
      InboundBookkeeping(bs, steps, i - 1);
      StepBooked(bs[i - 1], steps[i - 1]);
    }
    forall a | InContract(bs[i], a) ensures InApply(bs[i], a).Some? {
      StepBooked(bs[i], a);
    }
  }

  /** The notification is kept for a request still open. */
  ghost predicate Kept(b: Inbound, key: Key, x: nat) {
    key in b.feedback && b.feedback[key] == x
  }

  /** The request is over and its notification spent. */
  ghost predicate Over(b: Inbound, key: Key, x: nat) {
    && key in b.seen && key !in b.open && x in b.handed
    && forall k :: k in b.feedback ==> b.feedback[k] != x
  }

  ghost predicate Ends(a: InStep, key: Key) {
    a == ResponseSent(key) || a == InboundFailure(key)
  }

  lemma KeptUntilEnd(b: Inbound, a: InStep, key: Key, x: nat)
    requires Booked(b) && InContract(b, a) && InApply(b, a).Some? && Kept(b, key, x)
    ensures var b' := InApply(b, a).value;
      && (!Ends(a, key) ==> Kept(b', key, x) && x !in b'.fired)
      && (Ends(a, key) ==> Over(b', key, x) && (x in b'.fired <==> a == ResponseSent(key)))
  {
    assert key in b.open && key in b.answered && x !in b.fired;
  }

  lemma OverForGood(b: Inbound, a: InStep, key: Key, x: nat)
    requires Booked(b) && InContract(b, a) && InApply(b, a).Some? && Over(b, key, x)
    ensures Over(InApply(b, a).value, key, x) && !Ends(a, key)
    ensures x in InApply(b, a).value.fired <==> x in b.fired
  {
  }

  /** The steps from i + 1 on, short of j, that end the request. */
  ghost predicate EndedWithin(steps: seq<InStep>, i: nat, j: nat, key: Key) {
    exists s :: i < s < j && s < |steps| && Ends(steps[s], key)
  }

  ghost predicate SentWithin(steps: seq<InStep>, i: nat, j: nat, key: Key) {
    exists s :: i < s < j && s < |steps| && steps[s] == ResponseSent(key)
  }

  /** The fate of a notification handed in with a response that was taken: it is
      kept until the request ends, and it fires exactly if the response was sent. */
  lemma {:induction false} NotificationFate(bs: seq<Inbound>, steps: seq<InStep>, i: nat, j: nat, key: Key, x: nat)
    requires InRun(bs, steps) && i < j < |bs| && steps[i] == Reply(key, true, true, Some(x))
    ensures x in bs[j].fired <==> SentWithin(steps, i, j, key)
    ensures Kept(bs[j], key, x) <==> !EndedWithin(steps, i, j, key)
    ensures Kept(bs[j], key, x) || Over(bs[j], key, x)
  {
    InboundBookkeeping(bs, steps, j - 1);
    if j == i + 1 {
      assert x !in bs[i].handed && x !in bs[j].fired;
    } else {
      NotificationFate(bs, steps, i, j - 1, key, x);
      FateStep(bs, steps, i, j, key, x);
    }
  }

  lemma FateStep(bs: seq<Inbound>, steps: seq<InStep>, i: nat, j: nat, key: Key, x: nat)
    requires InRun(bs, steps) && i + 1 < j < |bs| && Booked(bs[j - 1])
    requires x in bs[j - 1].fired <==> SentWithin(steps, i, j - 1, key)
    requires Kept(bs[j - 1], key, x) <==> !EndedWithin(steps, i, j - 1, key)
    requires Kept(bs[j - 1], key, x) || Over(bs[j - 1], key, x)
    ensures x in bs[j].fired <==> SentWithin(steps, i, j, key)
    ensures Kept(bs[j], key, x) <==> !EndedWithin(steps, i, j, key)
    ensures Kept(bs[j], key, x) || Over(bs[j], key, x)
  {
    var a := steps[j - 1];
    assert InContract(bs[j - 1], a) && InApply(bs[j - 1], a) == Some(bs[j]);
    assert EndedWithin(steps, i, j, key) <==> EndedWithin(steps, i, j - 1, key) || Ends(a, key);
    assert SentWithin(steps, i, j, key) <==> SentWithin(steps, i, j - 1, key) || a == ResponseSent(key);
    if Kept(bs[j - 1], key, x) {
      KeptUntilEnd(bs[j - 1], a, key, x);
    } else {
      OverForGood(bs[j - 1], a, key, x);
    }
  }

  /** A notification in the table was handed in with a response to that request that was taken. */
  lemma {:induction false} KeptFrom(bs: seq<Inbound>, steps: seq<InStep>, j: nat, key: Key, x: nat)
    requires InRun(bs, steps) && j < |bs| && Kept(bs[j], key, x)
    ensures exists i :: 0 <= i < j && steps[i] == Reply(key, true, true, Some(x))
  {
    if j == 0 {
      assert false;
    } else {
      assert InApply(bs[j - 1], steps[j - 1]) == Some(bs[j]);
      if Kept(bs[j - 1], key, x) {
        KeptFrom(bs, steps, j - 1, key, x);
      } else {
        assert steps[j - 1] == Reply(key, true, true, Some(x));
      }
    }
  }

  /** In every run a notification has fired if and only if it came with a response that
      was taken, and that response was sent. */
  lemma {:induction false} FiredExactly(bs: seq<Inbound>, steps: seq<InStep>, j: nat, x: nat)
    requires InRun(bs, steps) && j < |bs|
    ensures x in bs[j].fired <==>
      exists i: nat, key :: i < j && steps[i] == Reply(key, true, true, Some(x)) && SentWithin(steps, i, j, key)
  {
    if j > 0 && x in bs[j].fired {
      FiredExactly(bs, steps, j - 1, x);
      if x in bs[j - 1].fired {
        var i: nat, key :| i < j - 1 && steps[i] == Reply(key, true, true, Some(x)) && SentWithin(steps, i, j - 1, key);
        NotificationFate(bs, steps, i, j, key, x);
        assert SentWithin(steps, i, j, key);
      } else {
        FiredNow(bs, steps, j, x);
      }
    }
    if i: nat, key :| i < j && steps[i] == Reply(key, true, true, Some(x)) && SentWithin(steps, i, j, key) {
      NotificationFate(bs, steps, i, j, key, x);
    }
  }

  lemma FiredNow(bs: seq<Inbound>, steps: seq<InStep>, j: nat, x: nat)
    requires InRun(bs, steps) && 0 < j < |bs| && x in bs[j].fired && x !in bs[j - 1].fired
    ensures exists i: nat, key :: i < j && steps[i] == Reply(key, true, true, Some(x)) && SentWithin(steps, i, j, key)
  {
    assert InApply(bs[j - 1], steps[j - 1]) == Some(bs[j]);
    var key := steps[j - 1].skey;
    assert Kept(bs[j - 1], key, x);
    KeptFrom(bs, steps, j - 1, key, x);
    var i :| 0 <= i < j - 1 && steps[i] == Reply(key, true, true, Some(x));
    assert SentWithin(steps, i, j, key);
  }

  // ---------- the behaviour ----------

  class Broadcast {
    const protocols: set<Protocol>
    var pendingRequests: map<Key, Pending>
    var attempts: seq<Attempt>
    var sends: seq<Send>
    var arrivals: set<Key>
    var sendFeedback: map<Key, nat>
    var fired: seq<nat>
    ghost var open: set<Key>
    ghost var seen: set<Key>
    ghost var answered: set<Key>
    ghost var handed: set<nat>

    ghost function Out(): Outbound
      reads this
    {
      Outbound(pendingRequests, attempts, sends)
    }

    ghost function In(): Inbound
      reads this
    {
      Inbound(arrivals, sendFeedback, fired, open, seen, answered, handed)
    }

    constructor (protocols: set<Protocol>)
      ensures this.protocols == protocols
      ensures Out() == Outbound(map[], [], []) && In() == Inbound({}, map[], [], {}, {}, {}, {})
    {
      this.protocols := protocols;
      pendingRequests, attempts, sends := map[], [], [];
      arrivals, sendFeedback, fired := {}, map[], [];
      open, seen, answered, handed := {}, {}, {}, {};
    }

    method Try(ticket: nat, chan: Option<ChanId>, answer: Answer)
      modifies this`attempts
      ensures attempts == Tried(old(attempts), ticket, chan, answer)
    {
      if chan.Some? {
        attempts := attempts + [Attempt(ticket, chan.value, answer)];
      }
    }

    /** `requestId` is the id the inner behaviour gives the request, if it takes it. */
    method SendWireMessage(target: Peer, protocol: Protocol, chan: Option<ChanId>, connected: bool, connect: bool,
                           requestId: nat)
      modifies this`pendingRequests, this`attempts, this`sends
      ensures Out()
        == SendOne(old(Out()), target, Key(protocol, requestId), chan, protocol in protocols, connected || connect)
    {
      var ticket := |sends|;
      sends := sends + [Send(target, chan)];
      if protocol in protocols {
        if connected || connect {
          pendingRequests := pendingRequests[Key(protocol, requestId) := Pending(ticket, chan)];
        } else {
          Try(ticket, chan, Err(NotConnected));
        }
      } else {
        Try(ticket, chan, Err(UnknownProtocol));
      }
    }

    method BroadcastMessage(targets: seq<Peer>, protocol: Protocol, chan: Option<ChanId>, connected: seq<bool>,
                            connect: bool, ids: seq<nat>)
      requires |targets| == |ids| == |connected|
      modifies this`pendingRequests, this`attempts, this`sends
      ensures Out() == SendAll(old(Out()), protocol, targets, ids, connected, chan, protocol in protocols, connect)
    {
      for i := 0 to |targets|
        invariant Out()
          == SendAll(old(Out()), protocol, targets[..i], ids, connected, chan, protocol in protocols, connect)
      {
        SendWireMessage(targets[i], protocol, chan, connected[i], connect, ids[i]);
        assert targets[..i + 1][..i] == targets[..i];
      }
      assert targets[..|targets|] == targets;
    }

    method OnResponse(key: Key, peer: Peer, response: Option<Bytes>)
      modifies this`pendingRequests, this`attempts
      ensures Out() == OutApply(old(Out()), Response(key, peer, response))
    {
      if key in pendingRequests {
        var p := pendingRequests[key];
        pendingRequests := pendingRequests - {key};
        Try(p.ticket, p.chan, match response case Some(payload) => Ok((peer, payload)) case None => Err(Refused));
      }
    }

    method OnOutboundFailure(key: Key)
      modifies this`pendingRequests, this`attempts
      ensures Out() == OutApply(old(Out()), OutboundFailure(key))
    {
      if key in pendingRequests {
        var p := pendingRequests[key];
        pendingRequests := pendingRequests - {key};
        Try(p.ticket, p.chan, Err(Network));
      }
    }

    method OnRequest(key: Key)
      modifies this`arrivals, this`open, this`seen
      ensures InApply(old(In()), Arrive(key)) == Some(In())
    {
      arrivals := arrivals + {key};
      open, seen := open + {key}, seen + {key};
    }

    /** The reply to a request is ready; `sent` tells whether the inner behaviour took it. */
    method OnReply(key: Key, ok: bool, sent: bool, notify: Option<nat>)
      modifies this`sendFeedback, this`answered, this`handed
      ensures InApply(old(In()), Reply(key, ok, sent, notify)) == Some(In())
    {
      answered, handed := answered + {key}, handed + if notify.Some? then {notify.value} else {};
      if ok {
        if sent {
          if notify.Some? {
            sendFeedback := sendFeedback[key := notify.value];
          }
        }
      }
    }

    method OnResponseSent(key: Key)
      requires Booked(In()) && InContract(In(), ResponseSent(key))
      modifies this`arrivals, this`sendFeedback, this`fired, this`open
      ensures InApply(old(In()), ResponseSent(key)) == Some(In())
    {
      assert key in arrivals;
      arrivals := arrivals - {key};
      open := open - {key};
      if key in sendFeedback {
        fired := fired + [sendFeedback[key]];
      }
      sendFeedback := sendFeedback - {key};
    }

    method OnInboundFailure(key: Key)
      modifies this`arrivals, this`sendFeedback, this`open
      ensures InApply(old(In()), InboundFailure(key)) == Some(In())
    {
      arrivals := arrivals - {key};
      sendFeedback := sendFeedback - {key};
      open := open - {key};
    }
  }
}
