/** The echo gadget of one party: it batches n messages, hashes them in sender
    order, acknowledges the remote ones with the hash and compares the hashes
    that come back about its own. */
module Echo {
  import opened Basics
  import Broadcasts

  type RequestFailure = Broadcasts.RequestFailure

  datatype EchoError = InconsistentEcho(index: nat) | EchoFailed(failure: RequestFailure)

  /** Where the answer to a message goes (a remote's message) or comes from (the party's own). */
  datatype EchoResponse<I, O> = Incoming(tx: I) | Outgoing(rx: O)

  datatype EchoMessage<I, O> = EchoMessage(sender: nat, payload: Bytes, response: EchoResponse<I, O>)

  /** One answer to a broadcast: the answering peer and its hash, or a failure. */
  type Answer<P> = Result<(P, Bytes), RequestFailure>

  function Payloads<I, O>(batch: seq<EchoMessage<I, O>>): (r: seq<Bytes>)
    ensures |r| == |batch| && forall i :: 0 <= i < |batch| ==> r[i] == batch[i].payload
  {
    seq(|batch|, i requires 0 <= i < |batch| => batch[i].payload)
  }

  /** What is hashed: the payloads in the order they are popped, with no framing. */
  function HashInput<I, O>(batch: seq<EchoMessage<I, O>>): Bytes {
    Concat(Payloads(batch))
  }

  function AckOf<I, O>(m: EchoMessage<I, O>): seq<I> {
    if m.response.Incoming? then [m.response.tx] else []
  }

  function Acks<I, O>(batch: seq<EchoMessage<I, O>>): seq<I> {
    if batch == [] then [] else AckOf(batch[0]) + Acks(batch[1..])
  }

  function Responses<I, O>(batch: seq<EchoMessage<I, O>>): (r: seq<EchoResponse<I, O>>)
    ensures |r| == |batch| && forall i :: 0 <= i < |batch| ==> r[i] == batch[i].response
  {
    seq(|batch|, i requires 0 <= i < |batch| => batch[i].response)
  }

  /** The places of the remotes' messages in a batch. */
  ghost function Remote<I, O>(batch: seq<EchoMessage<I, O>>): set<nat> {
    set i: nat | i < |batch| && batch[i].response.Incoming?
  }

  /** No two remotes' messages are to be answered on one channel. */
  ghost predicate ChannelsApart<I, O>(batch: seq<EchoMessage<I, O>>) {
    forall i, j :: 0 <= i < j < |batch| && batch[i].response.Incoming? ==> batch[i].response != batch[j].response
  }

  /** One answer for each remote's message and, when their channels differ, one on each. */
  ghost predicate AckedOnce<I, O>(batch: seq<EchoMessage<I, O>>, acks: seq<I>) {
    |acks| == |Remote(batch)| && (ChannelsApart(batch) ==> Distinct(acks))
  }

  /** A channel is answered as often as the batch has messages that ask for it. */
  ghost predicate AckedAsAsked<I(!new), O>(batch: seq<EchoMessage<I, O>>, acks: seq<I>) {
    forall t :: multiset(acks)[t] == multiset(Responses(batch))[Incoming(t)]
  }

  /** The own message whose answers are awaited: the one popped last. */
  function Awaited<I, O>(batch: seq<EchoMessage<I, O>>): Option<O> {
    if batch == [] then None
    else
      var last := batch[|batch| - 1].response;
      if last.Outgoing? then Some(last.rx) else Awaited(batch[..|batch| - 1])
  }

  ghost predicate Descending<I, O>(batch: seq<EchoMessage<I, O>>) {
    forall i, j :: 0 <= i < j < |batch| ==> batch[i].sender >= batch[j].sender
  }

  ghost predicate OnePerSender<I, O>(batch: seq<EchoMessage<I, O>>) {
    forall i, j :: 0 <= i < j < |batch| ==> batch[i].sender != batch[j].sender
  }

  /** `order` is a way the max-heap can yield the messages of `heap`: by
      descending sender, equal senders in any order. */
  ghost predicate Drains<I, O>(heap: seq<EchoMessage<I, O>>, order: seq<EchoMessage<I, O>>) {
    multiset(order) == multiset(heap) && Descending(order)
  }

  /** The first answer that is a failure or carries another hash. */
  function Verdict<P>(answers: seq<Answer<P>>, digest: Bytes, index: nat): (r: Option<EchoError>)
    ensures r.None? <==> forall i :: 0 <= i < |answers| ==> answers[i].Ok? && answers[i].value.1 == digest
  {
    if answers == [] then None
    else match answers[0]
         case Err(e) => Some(EchoFailed(e))
         case Ok((_, hash)) =>
           if hash != digest then Some(InconsistentEcho(index % U16)) else Verdict(answers[1..], digest, index + 1)
  }

  /** A failure, or a hash other than the own one. */
  predicate Bad<P>(answer: Answer<P>, digest: Bytes) {
    answer.Err? || answer.value.1 != digest
  }

  ghost predicate FirstBad<P>(answers: seq<Answer<P>>, digest: Bytes, i: nat) {
    i < |answers| && Bad(answers[i], digest) && forall j :: 0 <= j < i ==> !Bad(answers[j], digest)
  }

  /** What a bad answer in this place is reported as. */
  function Blamed<P>(answer: Answer<P>, place: nat): EchoError {
    match answer case Err(e) => EchoFailed(e) case Ok(_) => InconsistentEcho(place % U16)
  }

  lemma {:induction false} FirstBadDecides<P>(answers: seq<Answer<P>>, digest: Bytes, index: nat, i: nat)
    requires FirstBad(answers, digest, i)
    ensures Verdict(answers, digest, index) == Some(Blamed(answers[i], index + i))
  {
    if i == 0 {
    } else {
      forall j | 0 <= j < i - 1 ensures !Bad(answers[1..][j], digest) {
        assert answers[1..][j] == answers[j + 1];
      }
      assert !Bad(answers[0], digest);
      FirstBadDecides(answers[1..], digest, index + 1, i - 1);
    }
  }

  lemma {:induction false} FindFirstBad<P>(answers: seq<Answer<P>>, digest: Bytes, k: nat) returns (i: nat)
    requires k < |answers| && Bad(answers[k], digest)
    ensures FirstBad(answers, digest, i)
    decreases k
  {
    i := k;
    if j :| 0 <= j < k && Bad(answers[j], digest) {
      i := FindFirstBad(answers, digest, j);
    }
  }

  /** The first bad answer, and no other, makes the verdict: its failure, or the
      place it was taken from. */
  lemma VerdictNamesFirstBad<P>(answers: seq<Answer<P>>, digest: Bytes, error: EchoError)
    ensures Verdict(answers, digest, 0) == Some(error) <==>
      exists i: nat :: FirstBad(answers, digest, i) && error == Blamed(answers[i], i)
  {
    if Verdict(answers, digest, 0).Some? {
      var k :| 0 <= k < |answers| && Bad(answers[k], digest);
      var i := FindFirstBad(answers, digest, k);
      FirstBadDecides(answers, digest, 0, i);
    }
    forall i: nat | FirstBad(answers, digest, i) ensures Verdict(answers, digest, 0) == Some(Blamed(answers[i], i)) {
      FirstBadDecides(answers, digest, 0, i);
    }
  }

  /** How far a round has come: collecting its batch, stuck without an own message,
      waiting for answers, or compared. */
  datatype RoundEnd<I> =
    | BatchOpen
    | NoOwnMessage
    | AwaitingAnswers(acks: seq<I>, digest: Bytes)
    | Compared(acks: seq<I>, digest: Bytes, error: Option<EchoError>)

  class EchoGadget<I(==), O(==)> {
    var r: nat
    const n: nat
    var msgs: seq<EchoMessage<I, O>>

    constructor (n: nat)
      ensures r == 0 && this.n == n && msgs == []
    {
      r, msgs := 0, [];
      this.n := n;
    }

    /** Collecting: the batch is closed by its n-th message. */
    method Push(m: EchoMessage<I, O>) returns (full: bool)
      modifies this`msgs
      ensures msgs == old(msgs) + [m]
      ensures full <==> |msgs| == n
    {
      msgs := msgs + [m];
      full := |msgs| == n;
    }

    method PopMax() returns (m: EchoMessage<I, O>)
      requires msgs != []
      modifies this`msgs
      ensures m in old(msgs) && multiset(old(msgs)) == multiset(msgs) + multiset{m}
      ensures |msgs| < |old(msgs)|
      ensures forall x :: x in old(msgs) ==> x.sender <= m.sender
    {
      var best := 0;
      for i := 1 to |msgs|
        invariant 0 <= best < |msgs|
        invariant forall j :: 0 <= j < i ==> msgs[j].sender <= msgs[best].sender
      {
        if msgs[i].sender > msgs[best].sender {
          best := i;
        }
      }
      m := msgs[best];
      assert msgs == msgs[..best] + [m] + msgs[best + 1..];
      msgs := msgs[..best] + msgs[best + 1..];
    }

    /** Empties the heap: the digest, the acknowledgement channels to answer with
        it, and the own message to wait for. No own message is a panic (None). */
    method Drain(hash: Bytes -> Bytes)
      returns (digest: Bytes, acks: seq<I>, awaited: Option<O>, ghost order: seq<EchoMessage<I, O>>)
      modifies this`msgs
      ensures msgs == []
      ensures Drains(old(msgs), order)
      ensures digest == hash(HashInput(order)) && acks == Acks(order) && awaited == Awaited(order)
      ensures AckedOnce(old(msgs), acks)
    {
      var input: Bytes := [];
      acks, awaited, order := [], None, [];
      while msgs != []
        invariant multiset(order) + multiset(msgs) == multiset(old(msgs))
        invariant Descending(order)
        invariant Above(order, msgs)
        invariant input == HashInput(order) && acks == Acks(order) && awaited == Awaited(order)
        decreases |msgs|
      {
        ghost var heap := msgs;
        var m := PopMax();
        DrainStep(order, heap, msgs, m);
        AppendOne(order, m);
        order := order + [m];
        input := input + m.payload;
        match m.response {
          case Incoming(tx) => acks := acks + [tx];
          case Outgoing(rx) => awaited := Some(rx);
        }
      }
      digest := hash(input);
      DrainedAcks(old(msgs), order);
    }

    /** Comparing: the first bad answer ends the session, else the round is done. */
    method Compare<P>(answers: seq<Answer<P>>, digest: Bytes) returns (error: Option<EchoError>)
      modifies this`r
      ensures error == Verdict(answers, digest, 0)
      ensures r == if error.None? then (old(r) + 1) % U16 else old(r)
    {
      for i := 0 to |answers|
        invariant r == old(r)
        invariant Verdict(answers, digest, 0) == Verdict(answers[i..], digest, i)
      {
        match answers[i] {
          case Ok((_, hash)) =>
            if hash != digest {
              return Some(InconsistentEcho(i % U16));
            }
          case Err(e) =>
            return Some(EchoFailed(e));
        }
        assert answers[i..][1..] == answers[i + 1..];
      }
      r := (r + 1) % U16;
      return None;
    }

    /** Collecting goes on until the batch is full or nothing is queued. */
    method Collect(queue: seq<EchoMessage<I, O>>) returns (full: bool, taken: nat)
      requires |msgs| < n
      modifies this`msgs
      ensures taken <= |queue| && msgs == old(msgs) + queue[..taken] && |msgs| <= n
      ensures full <==> |msgs| == n
      ensures !full ==> taken == |queue|
    {
      taken, full := 0, false;
      while !full && taken < |queue|
        invariant taken <= |queue|
        invariant msgs == old(msgs) + queue[..taken]
        invariant |msgs| <= n && (full <==> |msgs| == n)
        decreases |queue| - taken
      {
        full := Push(queue[taken]);
        taken := taken + 1;
      }
    }

    /** The rest of a round whose batch is full. */
    method CloseBatch<P>(hash: Bytes -> Bytes, outcomes: O -> seq<Answer<P>>)
      returns (end: RoundEnd<I>, ghost order: seq<EchoMessage<I, O>>)
      requires n >= 2
      modifies this
      ensures !end.BatchOpen? && msgs == [] && Drains(old(msgs), order)
      ensures end.NoOwnMessage? <==> Awaited(order).None?
      ensures end.AwaitingAnswers? || end.Compared? ==>
        end.acks == Acks(order) && end.digest == hash(HashInput(order)) && AckedOnce(old(msgs), end.acks)
      ensures end.AwaitingAnswers? ==> |outcomes(Awaited(order).value)| < n - 1
      ensures end.Compared? ==>
        && |outcomes(Awaited(order).value)| >= n - 1
        && end.error == Verdict(outcomes(Awaited(order).value)[..n - 1], end.digest, 0)
      ensures r == if end.Compared? && end.error.None? then (old(r) + 1) % U16 else old(r)
    {
      var digest, acks, awaited;
      digest, acks, awaited, order := Drain(hash);
      if awaited.None? {
        return NoOwnMessage, order;
      }
      var answers := outcomes(awaited.value);
      if |answers| < n - 1 {
        return AwaitingAnswers(acks, digest), order;
      }
      var error := Compare(answers[..n - 1], digest);
      end := Compared(acks, digest, error);
    }

    /** A whole round over the messages queued and the answers each own message has
        had so far: exactly n messages make the batch, its digest is that of their
        descending order, and the first n - 1 answers decide. */
    method ProceedRound<P>(queue: seq<EchoMessage<I, O>>, hash: Bytes -> Bytes, outcomes: O -> seq<Answer<P>>)
      returns (end: RoundEnd<I>, taken: nat, ghost order: seq<EchoMessage<I, O>>)
      requires n >= 2 && |msgs| < n
      modifies this
      ensures taken <= |queue|
      ensures end.BatchOpen? <==> |old(msgs)| + |queue| < n
      ensures end.BatchOpen? ==> taken == |queue| && msgs == old(msgs) + queue && r == old(r)
      ensures !end.BatchOpen? ==> |old(msgs)| + taken == n && msgs == [] && Drains(old(msgs) + queue[..taken], order)
      ensures !end.BatchOpen? ==> (end.NoOwnMessage? <==> Awaited(order).None?)
      ensures end.AwaitingAnswers? || end.Compared? ==>
        && end.acks == Acks(order) && end.digest == hash(HashInput(order))
        && AckedOnce(old(msgs) + queue[..taken], end.acks)
      ensures end.AwaitingAnswers? ==> |outcomes(Awaited(order).value)| < n - 1
      ensures end.Compared? ==>
        && |outcomes(Awaited(order).value)| >= n - 1
        && end.error == Verdict(outcomes(Awaited(order).value)[..n - 1], end.digest, 0)
      ensures r == if end.Compared? && end.error.None? then (old(r) + 1) % U16 else old(r)
    {
      var full;
      full, taken := Collect(queue);
      if full {
        end, order := CloseBatch(hash, outcomes);
      } else {
        end, order := BatchOpen, [];
      }
    }
  }

  ghost predicate Above<I, O>(a: seq<EchoMessage<I, O>>, b: seq<EchoMessage<I, O>>) {
    forall x, y :: x in a && y in b ==> x.sender >= y.sender
  }

  lemma DrainStep<I, O>(order: seq<EchoMessage<I, O>>, heap: seq<EchoMessage<I, O>>, rest: seq<EchoMessage<I, O>>,
                        m: EchoMessage<I, O>)
    requires Descending(order) && Above(order, heap)
    requires multiset(heap) == multiset(rest) + multiset{m} && m in heap
    requires forall x :: x in heap ==> x.sender <= m.sender
    ensures Descending(order + [m]) && Above(order + [m], rest)
    ensures multiset(order + [m]) + multiset(rest) == multiset(order) + multiset(heap)
  {
    forall y | y in rest ensures y in heap {
      assert y in multiset(heap);
    }
    forall i | 0 <= i < |order| ensures order[i].sender >= m.sender {
      assert order[i] in order;
    }
  }

  lemma AppendOne<I, O>(batch: seq<EchoMessage<I, O>>, m: EchoMessage<I, O>)
    ensures HashInput(batch + [m]) == HashInput(batch) + m.payload
    ensures Acks(batch + [m]) == Acks(batch) + AckOf(m)
    ensures Awaited(batch + [m]) == if m.response.Outgoing? then Some(m.response.rx) else Awaited(batch)
  {
    assert Payloads(batch + [m]) == Payloads(batch) + [m.payload];
    ConcatAppend(Payloads(batch), [m.payload]);
    assert Concat([m.payload]) == m.payload + Concat([]);
    AcksAppend(batch, [m]);
    assert (batch + [m])[..|batch|] == batch;
  }

  lemma {:induction false} AcksAppend<I, O>(a: seq<EchoMessage<I, O>>, b: seq<EchoMessage<I, O>>)
    ensures Acks(a + b) == Acks(a) + Acks(b)
  {
    if a == [] {
      assert a + b == b;
    } else {
      AcksAppend(a[1..], b);
      TailOfSum(a, b);
      SumAssociates(AckOf(a[0]), Acks(a[1..]), Acks(b));
    }
  }

  lemma {:induction false} AcksMembers<I, O>(batch: seq<EchoMessage<I, O>>, t: I)
    ensures t in Acks(batch) <==> exists m :: m in batch && m.response == Incoming(t)
  {
    if batch == [] {
    } else {
      AcksMembers(batch[1..], t);
      assert batch == [batch[0]] + batch[1..];
    }
  }

  lemma {:induction false} AwaitedMember<I, O>(batch: seq<EchoMessage<I, O>>)
    ensures Awaited(batch).Some? ==> exists m :: m in batch && m.response == Outgoing(Awaited(batch).value)
    ensures Awaited(batch).None? ==> forall m :: m in batch ==> m.response.Incoming?
  {
    if batch == [] {
    } else {
      var front := batch[..|batch| - 1];
      AwaitedMember(front);
      assert batch == front + [batch[|batch| - 1]];
    }
  }

  /** What is awaited is the own message that is popped last. */
  lemma {:induction false} AwaitedIsPoppedLast<I, O>(batch: seq<EchoMessage<I, O>>, rx: O)
    ensures Awaited(batch) == Some(rx) <==>
      exists i :: 0 <= i < |batch| && batch[i].response == Outgoing(rx)
        && forall j :: i < j < |batch| ==> batch[j].response.Incoming?
  {
    if batch == [] {
    } else {
      var k := |batch| - 1;
      AwaitedIsPoppedLast(batch[..k], rx);
    }
  }

  /** Nothing is awaited exactly when the batch holds no own message. */
  lemma AwaitedExactly<I, O>(batch: seq<EchoMessage<I, O>>)
    ensures Awaited(batch).None? <==> forall m :: m in batch ==> m.response.Incoming?
  {
    AwaitedMember(batch);
  }

  // ---------- order independence ----------

  lemma DrainKeeps<I, O>(heap: seq<EchoMessage<I, O>>, order: seq<EchoMessage<I, O>>)
    requires Drains(heap, order)
    ensures |order| == |heap|
    ensures forall m :: m in order <==> m in heap
  {
    SameMultisetSameElements(order, heap);
  }

  lemma SplitMultiset<T>(s: seq<T>, i: nat, j: nat)
    requires i < j < |s|
    ensures multiset(s) >= multiset{s[i], s[j]}
  {
    assert s == s[..i] + [s[i]] + s[i + 1..j] + [s[j]] + s[j + 1..];
  }

  lemma DrainKeepsSenders<I, O>(heap: seq<EchoMessage<I, O>>, order: seq<EchoMessage<I, O>>)
    requires Drains(heap, order) && OnePerSender(heap)
    ensures OnePerSender(order)
  {
    DrainKeeps(heap, order);
    forall i, j | 0 <= i < j < |order| ensures order[i].sender != order[j].sender {
      SplitMultiset(order, i, j);
      if order[i] == order[j] {
        TwiceInHeap(heap, order[i]);
      } else {
        assert order[i] in heap && order[j] in heap;
        var a :| 0 <= a < |heap| && heap[a] == order[i];
        var b :| 0 <= b < |heap| && heap[b] == order[j];
      }
    }
  }

  lemma {:induction false} TwiceInHeap<I, O>(heap: seq<EchoMessage<I, O>>, m: EchoMessage<I, O>)
    requires OnePerSender(heap)
    ensures multiset(heap)[m] <= 1
  {
    if heap == [] {
    } else {
      TwiceInHeap(heap[1..], m);
      assert heap == [heap[0]] + heap[1..];
      assert forall j :: 0 <= j < |heap[1..]| ==> heap[1..][j].sender != heap[0].sender;
      assert heap[0] !in heap[1..];
    }
  }

  lemma HighestAgree<I, O>(a: seq<EchoMessage<I, O>>, b: seq<EchoMessage<I, O>>)
    requires Descending(a) && Descending(b) && OnePerSender(a)
    requires multiset(a) == multiset(b) && a != []
    ensures b != [] && a[0] == b[0]
  {
    SameMultisetSameElements(a, b);
    assert a[0] in b && b[0] in a;
    var i :| 0 <= i < |b| && b[i] == a[0];
    var j :| 0 <= j < |a| && a[j] == b[0];
  }

  lemma {:induction false} DescendingUnique<I, O>(a: seq<EchoMessage<I, O>>, b: seq<EchoMessage<I, O>>)
    requires Descending(a) && Descending(b) && OnePerSender(a)
    requires multiset(a) == multiset(b)
    ensures a == b
  {
    SameMultisetSameElements(a, b);
    if a == [] {
    } else {
      HighestAgree(a, b);
      MultisetTail(a);
      MultisetTail(b);
      DescendingUnique(a[1..], b[1..]);
      assert a == [a[0]] + a[1..] && b == [b[0]] + b[1..];
    }
  }

  lemma AcksFrom<I, O>(b: seq<EchoMessage<I, O>>, j: nat)
    requires j < |b|
    ensures Acks(b) == Acks(b[..j]) + (AckOf(b[j]) + Acks(b[j + 1..]))
  {
    assert b == b[..j] + b[j..] && b[j..][1..] == b[j + 1..];
    AcksAppend(b[..j], b[j..]);
  }

  lemma AcksRemove<I, O>(b: seq<EchoMessage<I, O>>, j: nat)
    requires j < |b|
    ensures multiset(Acks(b)) == multiset(AckOf(b[j])) + multiset(Acks(b[..j] + b[j + 1..]))
  {
    AcksFrom(b, j);
    AcksAppend(b[..j], b[j + 1..]);
    MultisetMiddle(Acks(b[..j]), AckOf(b[j]), Acks(b[j + 1..]));
  }

  lemma {:induction false} AcksMultiset<I, O>(a: seq<EchoMessage<I, O>>, b: seq<EchoMessage<I, O>>)
    requires multiset(a) == multiset(b)
    ensures multiset(Acks(a)) == multiset(Acks(b))
  {
    SameMultisetSameElements(a, b);
    if a == [] {
    } else {
      assert a[0] in b;
      var j :| 0 <= j < |b| && b[j] == a[0];
      MultisetTail(a);
      MultisetRemove(b, j);
      AcksMultiset(a[1..], b[..j] + b[j + 1..]);
      AcksRemove(b, j);
    }
  }

  lemma {:induction false} AcksCount<I, O>(batch: seq<EchoMessage<I, O>>, t: I)
    ensures multiset(Acks(batch))[t] == multiset(Responses(batch))[Incoming(t)]
  {
    if batch == [] {
    } else {
      AcksCount(batch[1..], t);
      assert Responses(batch) == [batch[0].response] + Responses(batch[1..]);
    }
  }

  lemma RemoteGrows<I, O>(batch: seq<EchoMessage<I, O>>, m: EchoMessage<I, O>)
    ensures Remote(batch + [m]) == Remote(batch) + if m.response.Incoming? then {|batch|} else {}
  {
    var whole := batch + [m];
    assert forall i: nat :: i < |batch| ==> whole[i] == batch[i];
    assert whole[|batch|] == m;
  }

  lemma {:induction false} AcksNumber<I, O>(batch: seq<EchoMessage<I, O>>)
    ensures |Acks(batch)| == |Remote(batch)|
  {
    if batch == [] {
    } else {
      var k := |batch| - 1;
      AcksNumber(batch[..k]);
      assert batch == batch[..k] + [batch[k]];
      AppendOne(batch[..k], batch[k]);
      RemoteGrows(batch[..k], batch[k]);
    }
  }

  lemma {:induction false} AcksApart<I, O>(batch: seq<EchoMessage<I, O>>)
    requires ChannelsApart(batch)
    ensures Distinct(Acks(batch))
  {
    if batch == [] {
    } else {
      var rest := batch[1..];
      assert forall j :: 0 <= j < |rest| ==> rest[j] == batch[j + 1];
      AcksApart(rest);
      if batch[0].response.Incoming? {
        AcksMembers(rest, batch[0].response.tx);
      }
    }
  }

  lemma DrainedAsAsked<I(!new), O>(heap: seq<EchoMessage<I, O>>, order: seq<EchoMessage<I, O>>)
    requires Drains(heap, order)
    ensures AckedAsAsked(heap, Acks(order))
  {
    AcksMultiset(order, heap);
    forall t ensures multiset(Acks(order))[t] == multiset(Responses(heap))[Incoming(t)] {
      AcksCount(heap, t);
    }
  }

  lemma DrainedAcks<I, O>(heap: seq<EchoMessage<I, O>>, order: seq<EchoMessage<I, O>>)
    requires Drains(heap, order)
    ensures AckedOnce(heap, Acks(order))
  {
    AcksMultiset(order, heap);
    AcksNumber(heap);
    SameMultisetSameElements(Acks(order), Acks(heap));
    if ChannelsApart(heap) {
      AcksApart(heap);
      DistinctMultiset(Acks(heap));
      MultisetDistinct(Acks(order));
    }
  }

  /** Whatever the arrival order of messages from distinct senders, and whatever
      the heap does, the batch is popped in one and the same strictly descending
      order, and every acknowledgement channel is answered as often as asked for. */
  lemma OrderIndependence<I(!new), O>(heapA: seq<EchoMessage<I, O>>, heapB: seq<EchoMessage<I, O>>,
                                orderA: seq<EchoMessage<I, O>>, orderB: seq<EchoMessage<I, O>>)
    requires multiset(heapA) == multiset(heapB) && OnePerSender(heapA)
    requires Drains(heapA, orderA) && Drains(heapB, orderB)
    ensures orderA == orderB && HashInput(orderA) == HashInput(orderB)
    ensures forall i, j :: 0 <= i < j < |orderA| ==> orderA[i].sender > orderA[j].sender
    ensures AckedOnce(heapA, Acks(orderA)) && AckedAsAsked(heapA, Acks(orderA))
    ensures AckedOnce(heapB, Acks(orderB)) && AckedAsAsked(heapB, Acks(orderB))
  {
    DrainKeepsSenders(heapA, orderA);
    DescendingUnique(orderA, orderB);
    DrainedAcks(heapA, orderA);
    DrainedAsAsked(heapA, orderA);
    DrainedAcks(heapB, orderB);
    DrainedAsAsked(heapB, orderB);
  }

  // ---------- what equal hash inputs say about the payloads ----------

  /** The concatenation is not framed. For lists of as many payloads with the same
      concatenation, the payloads agree exactly when their lengths do. */
  lemma {:induction false} LiftsExactlyByLength(a: seq<Bytes>, b: seq<Bytes>)
    requires |a| == |b| && Concat(a) == Concat(b)
    ensures a == b <==> forall i :: 0 <= i < |a| ==> |a[i]| == |b[i]|
  {
    if a != [] && forall i :: 0 <= i < |a| ==> |a[i]| == |b[i]| {
      assert Concat(a)[..|a[0]|] == a[0] && Concat(b)[..|b[0]|] == b[0];
      assert Concat(a)[|a[0]|..] == Concat(a[1..]) && Concat(b)[|b[0]|..] == Concat(b[1..]);
      forall i | 0 <= i < |a[1..]| ensures |a[1..][i]| == |b[1..][i]| {
        assert a[1..][i] == a[i + 1] && b[1..][i] == b[i + 1];
      }
      LiftsExactlyByLength(a[1..], b[1..]);
      assert a == [a[0]] + a[1..] && b == [b[0]] + b[1..];
    }
  }

  lemma {:induction false} ConcatLength(a: seq<Bytes>, b: seq<Bytes>, e: nat)
    requires |a| == |b| && e < |a|
    requires forall i :: 0 <= i < |a| && i != e ==> a[i] == b[i]
    ensures |Concat(a)| - |a[e]| == |Concat(b)| - |b[e]|
  {
    if e > 0 {
      ConcatLength(a[1..], b[1..], e - 1);
    } else {
      assert a[1..] == b[1..];
    }
  }

  /** One equivocating sender is always caught, whatever lengths it picks. */
  lemma OneEquivocatorIsCaught(a: seq<Bytes>, b: seq<Bytes>, e: nat)
    requires |a| == |b| && e < |a|
    requires forall i :: 0 <= i < |a| && i != e ==> a[i] == b[i]
    ensures Concat(a) == Concat(b) <==> a == b
  {
    if Concat(a) == Concat(b) {
      ConcatLength(a, b, e);
      LiftsExactlyByLength(a, b);
    }
  }

  /** One message from each of the senders 1 to n, popped in descending order. */
  ghost predicate FullBatch<I, O>(batch: seq<EchoMessage<I, O>>, n: nat) {
    && |batch| == n
    && Descending(batch)
    && OnePerSender(batch)
    && forall i :: 0 <= i < |batch| ==> 1 <= batch[i].sender <= n
  }

  lemma {:induction false} AtMost<I, O>(batch: seq<EchoMessage<I, O>>, n: nat, j: nat)
    requires FullBatch(batch, n) && j < n
    ensures batch[j].sender <= n - j
  {
    if j == 0 {
    } else {
      AtMost(batch, n, j - 1);
      assert batch[j - 1].sender > batch[j].sender;
    }
  }

  lemma {:induction false} AtLeast<I, O>(batch: seq<EchoMessage<I, O>>, n: nat, j: nat)
    requires FullBatch(batch, n) && j < n
    ensures batch[j].sender >= n - j
    decreases n - j
  {
    if j + 1 == n {
    } else {
      AtLeast(batch, n, j + 1);
      assert batch[j].sender > batch[j + 1].sender;
    }
  }

  /** In a full batch position decides the sender. */
  lemma FullBatchOrder<I, O>(batch: seq<EchoMessage<I, O>>, n: nat)
    requires FullBatch(batch, n)
    ensures forall j :: 0 <= j < n ==> batch[j].sender == n - j
  {
    forall j | 0 <= j < n ensures batch[j].sender == n - j {
      AtMost(batch, n, j);
      AtLeast(batch, n, j);
    }
  }

  ghost predicate SameLengths<I, O>(a: seq<EchoMessage<I, O>>, b: seq<EchoMessage<I, O>>) {
    |a| == |b| && forall j :: 0 <= j < |a| ==> |a[j].payload| == |b[j].payload|
  }

  /** The same payload from every sender. */
  ghost predicate SameVector<I, O>(a: seq<EchoMessage<I, O>>, b: seq<EchoMessage<I, O>>) {
    |a| == |b| && forall j :: 0 <= j < |a| ==> a[j].sender == b[j].sender && a[j].payload == b[j].payload
  }

  /** Full batches with one hash input hold the same payloads, sender by sender,
      exactly when the lengths agree sender by sender. */
  lemma EqualInputsLift<I, O>(a: seq<EchoMessage<I, O>>, b: seq<EchoMessage<I, O>>, n: nat)
    requires FullBatch(a, n) && FullBatch(b, n) && HashInput(a) == HashInput(b)
    ensures SameVector(a, b) <==> SameLengths(a, b)
  {
    FullBatchOrder(a, n);
    FullBatchOrder(b, n);
    LiftsExactlyByLength(Payloads(a), Payloads(b));
    if SameLengths(a, b) {
      assert forall j :: 0 <= j < n ==> |Payloads(a)[j]| == |Payloads(b)[j]|;
      forall j | 0 <= j < n ensures a[j].payload == b[j].payload {
        assert Payloads(a)[j] == Payloads(b)[j];
      }
    }
  }
}
