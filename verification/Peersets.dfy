/** The ordered party list of a session: numbering, byte form, and the recovery
    of key-generation indexes from the room's cache. */
module Peersets {
  import opened Basics
  import opened PeerOrder
  import BufIo

  /** Length of a peer id on the wire. */
  const ID: nat := 38
  /** A peer id and its one-byte index. */
  const ENTRY: nat := 39
  /** How many entries the reader serves before a read comes back short:
      210 entries are 8190 bytes, so the next id finds two bytes in the buffer. */
  const MAX_PEERS: nat := 210

  datatype Peerset = Peerset(local: PeerId, peers: seq<PeerId>, indexes: seq<nat>)

  /** What decoding foreign bytes comes to; a malformed peer id panics. */
  datatype Outcome<+T> = Done(value: T) | Panicked

  function Identity(n: nat): (s: seq<nat>)
    ensures |s| == n && forall i :: 0 <= i < n ==> s[i] == i
  {
    seq(n, i => i)
  }

  /** A session over the given peers, numbered by their sorted position. */
  function New(peers: seq<PeerId>, local: PeerId): (p: Peerset) {
    Peerset(local, Sort(peers), Identity(|peers|))
  }

  /** Position of the first occurrence of x. */
  function Position(s: seq<PeerId>, x: PeerId): (r: Option<nat>)
    ensures r.Some? ==> r.value < |s| && s[r.value] == x && x !in s[..r.value]
    ensures r.None? ==> x !in s
  {
    if s == [] then None
    else if s[0] == x then Some(0)
    else match Position(s[1..], x)
         case None => None
         case Some(i) =>
           assert s[..i + 1] == [s[0]] + s[1..][..i];
           Some(i + 1)
  }

  function IndexOf(p: Peerset, x: PeerId): (r: Option<nat>) {
    match Position(p.peers, x)
    case None => None
    case Some(i) => Some(i % U16)
  }

  function Remotes(peers: seq<PeerId>, local: PeerId): (r: seq<PeerId>) {
    if peers == [] then []
    else (if peers[0] == local then [] else [peers[0]]) + Remotes(peers[1..], local)
  }

  /** In a list of distinct peers, numbering and indexing are mutually inverse. */
  lemma IndexInverse(p: Peerset)
    requires Distinct(p.peers) && |p.peers| <= U16
    ensures forall i :: 0 <= i < |p.peers| ==> IndexOf(p, p.peers[i]) == Some(i)
    ensures forall x :: IndexOf(p, x).Some? <==> x in p.peers
    ensures forall x :: x in p.peers ==> IndexOf(p, x).value < |p.peers| && p.peers[IndexOf(p, x).value] == x
  {
    forall i | 0 <= i < |p.peers| ensures IndexOf(p, p.peers[i]) == Some(i) {
      var at := Position(p.peers, p.peers[i]);
      assert at.Some?;
      assert p.peers[at.value] == p.peers[i];
    }
  }

  /** The remotes are exactly the other peers, in order, each once. */
  lemma {:induction false} RemotesAreTheOthers(peers: seq<PeerId>, local: PeerId)
    requires Distinct(peers)
    ensures Distinct(Remotes(peers, local))
    ensures forall x :: x in Remotes(peers, local) <==> x in peers && x != local
    ensures local in peers ==> |Remotes(peers, local)| == |peers| - 1
    ensures local !in peers ==> |Remotes(peers, local)| == |peers|
  {
    if peers == [] {
    } else {
      var rest := Remotes(peers[1..], local);
      RemotesAreTheOthers(peers[1..], local);
      assert peers == [peers[0]] + peers[1..];
      assert peers[0] !in peers[1..];
      assert peers[0] !in rest;
    }
  }

  // ---------- byte form ----------

  ghost predicate Ids(peers: seq<PeerId>) {
    forall i :: 0 <= i < |peers| ==> |peers[i]| == ID
  }

  /** Entry after entry: the id and the low byte of the index. */
  function Flat(peers: seq<PeerId>, indexes: seq<nat>): (b: Bytes)
    requires |peers| <= |indexes|
  {
    if peers == [] then [] else peers[0] + [indexes[0] % 256] + Flat(peers[1..], indexes[1..])
  }

  lemma {:induction false} FlatAppend(peers: seq<PeerId>, indexes: seq<nat>, x: PeerId, k: nat)
    requires |peers| == |indexes|
    ensures Flat(peers + [x], indexes + [k]) == Flat(peers, indexes) + x + [k % 256]
  {
    if peers == [] {
      assert Flat(peers + [x], indexes + [k]) == x + [k % 256] + Flat([], []);
    } else {
      FlatAppend(peers[1..], indexes[1..], x, k);
      assert (peers + [x])[1..] == peers[1..] + [x];
      assert (indexes + [k])[1..] == indexes[1..] + [k];
    }
  }

  lemma {:induction false} FlatAt(peers: seq<PeerId>, indexes: seq<nat>, i: nat)
    requires Ids(peers) && |peers| <= |indexes|
    ensures |Flat(peers, indexes)| == ENTRY * |peers|
    ensures i < |peers| ==> Flat(peers, indexes)[ENTRY * i..ENTRY * i + ID] == peers[i]
    ensures i < |peers| ==> Flat(peers, indexes)[ENTRY * i + ID] == indexes[i] % 256
  {
    if peers == [] {
    } else {
      var b := Flat(peers, indexes);
      var rest := Flat(peers[1..], indexes[1..]);
      FlatAt(peers[1..], indexes[1..], if i == 0 then 0 else i - 1);
      assert b == peers[0] + [indexes[0] % 256] + rest;
      if 0 < i < |peers| {
        var o := ENTRY * (i - 1);
        assert ENTRY * i == o + ENTRY;
        assert b[o + ENTRY..o + ENTRY + ID] == rest[o..o + ID];
      }
    }
  }

  /** The encoding loop. Too few indexes would panic at the missing one. */
  method ToBytes(p: Peerset) returns (buf: Bytes)
    requires |p.peers| <= |p.indexes|
    ensures buf == Flat(p.peers, p.indexes)
  {
    buf := [];
    for i := 0 to |p.peers|
      invariant buf == Flat(p.peers[..i], p.indexes[..i])
    {
      buf := buf + p.peers[i];
      buf := buf + [p.indexes[i] % 256];
      FlatAppend(p.peers[..i], p.indexes[..i], p.peers[i], p.indexes[i]);
      assert p.peers[..i] + [p.peers[i]] == p.peers[..i + 1];
      assert p.indexes[..i] + [p.indexes[i]] == p.indexes[..i + 1];
    }
    assert p.peers[..|p.peers|] == p.peers;
    FlatPrefix(p.peers, p.indexes);
  }

  lemma {:induction false} FlatPrefix(peers: seq<PeerId>, indexes: seq<nat>)
    requires |peers| <= |indexes|
    ensures Flat(peers, indexes[..|peers|]) == Flat(peers, indexes)
  {
    if peers == [] {
    } else {
      FlatPrefix(peers[1..], indexes[1..]);
      assert indexes[..|peers|][1..] == indexes[1..][..|peers[1..]|];
    }
  }

  /** The entries a reader at c yields until a read of an id comes back short. An
      id cut off from its index byte by the end of the slice gets index 0. */
  function Entries(data: Bytes, c: BufIo.Cursor, valid: PeerId -> bool): (r: Outcome<(seq<PeerId>, seq<nat>)>)
    requires c.pos <= c.filled <= |data|
    ensures r.Done? ==> |r.value.0| == |r.value.1| && ENTRY * |r.value.0| <= |data| - c.pos + 1
    ensures r.Done? ==> Ids(r.value.0) && forall k :: k in r.value.1 ==> k < 256
    decreases |data| - c.pos
  {
    var (id, c1) := BufIo.ReadOnce(data, c, ID);
    if |id| != ID then Done(([], []))
    else if !valid(id) then Panicked
    else
      var (ix, c2) := BufIo.ReadOnce(data, c1, 1);
      match Entries(data, c2, valid)
      case Panicked => Panicked
      case Done((ids, ixs)) => Done(([id] + ids, [if ix == [] then 0 else ix[0]] + ixs))
  }

  /** What `FromBytes` decodes to: the peers sorted again, the indexes as read. */
  function Decoded(data: Bytes, local: PeerId, valid: PeerId -> bool): (r: Outcome<Peerset>)
    ensures r.Done? ==> |r.value.peers| == |r.value.indexes|
  {
    match Entries(data, BufIo.Cursor(0, 0), valid)
    case Panicked => Panicked
    case Done((ids, ixs)) => Done(Peerset(local, Sort(ids), ixs))
  }

  method FromBytes(data: Bytes, local: PeerId, valid: PeerId -> bool) returns (r: Outcome<Peerset>)
    ensures r == Decoded(data, local, valid)
  {
    var peers, indexes := [], [];
    var reader := new BufIo.BufReader(data);
    var more := true;
    PrefixedNothing(Entries(data, BufIo.Cursor(0, 0), valid));
    while more
      invariant reader.Valid() && reader.data == data && |peers| == |indexes|
      invariant more ==>
        Entries(data, BufIo.Cursor(0, 0), valid) == Prefixed(peers, indexes, Entries(data, reader.cursor, valid))
      invariant !more ==> Entries(data, BufIo.Cursor(0, 0), valid) == Done((peers, indexes))
      decreases more, |data| - reader.cursor.pos
    {
      ghost var whole := Entries(data, reader.cursor, valid);
      var id := reader.Read(ID);
      if |id| == ID {
        if !valid(id) {
          return Panicked;
        }
        ghost var before := (peers, indexes);
        peers := peers + [id];
        var ix := reader.Read(1);
        var index := if ix == [] then 0 else ix[0];
        indexes := indexes + [index];
        PrefixedStep(before.0, before.1, id, index, Entries(data, reader.cursor, valid));
      } else {
        assert whole == Done(([], []));
        assert peers + [] == peers && indexes + [] == indexes;
        more := false;
      }
    }
    return Done(Peerset(local, Sort(peers), indexes));
  }

  ghost function Prefixed(ids: seq<PeerId>, ixs: seq<nat>, r: Outcome<(seq<PeerId>, seq<nat>)>)
    : Outcome<(seq<PeerId>, seq<nat>)>
  {
    match r
    case Panicked => Panicked
    case Done((a, b)) => Done((ids + a, ixs + b))
  }

  lemma PrefixedNothing(r: Outcome<(seq<PeerId>, seq<nat>)>)
    ensures Prefixed([], [], r) == r
  {
    if r.Done? {
      assert [] + r.value.0 == r.value.0 && [] + r.value.1 == r.value.1;
    }
  }

  lemma PrefixedStep(ids: seq<PeerId>, ixs: seq<nat>, id: PeerId, ix: nat, r: Outcome<(seq<PeerId>, seq<nat>)>)
    ensures Prefixed(ids + [id], ixs + [ix], r) == Prefixed(ids, ixs, Prefixed([id], [ix], r))
  {
    if r.Done? {
      assert ids + [id] + r.value.0 == ids + ([id] + r.value.0);
      assert ixs + [ix] + r.value.1 == ixs + ([ix] + r.value.1);
    }
  }

  function LowBytes(s: seq<nat>): (r: seq<nat>)
    ensures |r| == |s| && forall i :: 0 <= i < |s| ==> r[i] == s[i] % 256
  {
    seq(|s|, i requires 0 <= i < |s| => s[i] % 256)
  }

  /** How many ids the reader serves: the whole ones, as far as one buffer goes. */
  function IdsServed(data: Bytes): nat {
    BufIo.Min((|data| + 1) / ENTRY, MAX_PEERS)
  }

  function IdAt(data: Bytes, i: nat): PeerId
    requires i < IdsServed(data)
  {
    data[ENTRY * i..ENTRY * i + ID]
  }

  /** The index behind an id; the slice may end before it. */
  function IndexAt(data: Bytes, i: nat): nat
    requires i < IdsServed(data)
  {
    if ENTRY * i + ID < |data| then data[ENTRY * i + ID] else 0
  }

  /** The reader before entry i. */
  function CursorAt(data: Bytes, i: nat): BufIo.Cursor {
    BufIo.Cursor(BufIo.Min(ENTRY * i, |data|), if i == 0 then 0 else BufIo.Min(BufIo.CAPACITY, |data|))
  }

  lemma ReadEntry(data: Bytes, i: nat)
    requires i < IdsServed(data)
    ensures CursorAt(data, i).pos <= CursorAt(data, i).filled <= |data|
    ensures var (id, c1) := BufIo.ReadOnce(data, CursorAt(data, i), ID);
            && id == IdAt(data, i)
            && BufIo.ReadOnce(data, c1, 1).1 == CursorAt(data, i + 1)
            && IndexAt(data, i) == (var ix := BufIo.ReadOnce(data, c1, 1).0; if ix == [] then 0 else ix[0])
  {
    var (id, c1) := BufIo.ReadOnce(data, CursorAt(data, i), ID);
    assert ENTRY * i + ID <= |data| && ENTRY * i + ENTRY <= BufIo.CAPACITY;
    assert c1 == BufIo.Cursor(ENTRY * i + ID, BufIo.Min(BufIo.CAPACITY, |data|));
  }

  lemma ReadPastLast(data: Bytes)
    ensures var c := CursorAt(data, IdsServed(data));
            c.pos <= c.filled <= |data| && |BufIo.ReadOnce(data, c, ID).0| < ID
  {
    var c := CursorAt(data, IdsServed(data));
    if IdsServed(data) == MAX_PEERS {
      assert c.pos == BufIo.Min(ENTRY * 210, |data|);
    } else {
      assert |data| < ENTRY * IdsServed(data) + ID;
    }
  }

  ghost predicate ServedFrom(data: Bytes, i: nat, valid: PeerId -> bool, r: Outcome<(seq<PeerId>, seq<nat>)>)
    requires i <= IdsServed(data)
  {
    && (r.Panicked? <==> exists j :: i <= j < IdsServed(data) && !valid(IdAt(data, j)))
    && (r.Done? ==>
          && |r.value.0| == |r.value.1| == IdsServed(data) - i
          && (forall j :: i <= j < IdsServed(data) ==> r.value.0[j - i] == IdAt(data, j))
          && (forall j :: i <= j < IdsServed(data) ==> r.value.1[j - i] == IndexAt(data, j)))
  }

  lemma CursorFits(data: Bytes, i: nat)
    ensures CursorAt(data, i).pos <= CursorAt(data, i).filled <= |data| || i > IdsServed(data)
  {
    if i <= IdsServed(data) {
      assert ENTRY * i <= BufIo.CAPACITY;
    }
  }

  /** What the reader yields from entry i on. */
  function EntriesFrom(data: Bytes, i: nat, valid: PeerId -> bool): Outcome<(seq<PeerId>, seq<nat>)>
    requires i <= IdsServed(data)
  {
    CursorFits(data, i);
    Entries(data, CursorAt(data, i), valid)
  }

  lemma OneEntry(data: Bytes, i: nat, valid: PeerId -> bool)
    requires i < IdsServed(data)
    ensures EntriesFrom(data, i, valid)
         == if valid(IdAt(data, i))
            then Prefixed([IdAt(data, i)], [IndexAt(data, i)], EntriesFrom(data, i + 1, valid))
            else Panicked
  {
    CursorFits(data, i + 1);
    ReadEntry(data, i);
  }

  lemma ServedEnd(data: Bytes, valid: PeerId -> bool)
    ensures EntriesFrom(data, IdsServed(data), valid) == Done(([], []))
  {
    ReadPastLast(data);
  }

  lemma {:induction false} EntriesServed(data: Bytes, i: nat, valid: PeerId -> bool)
    requires i <= IdsServed(data)
    ensures ServedFrom(data, i, valid, EntriesFrom(data, i, valid))
    decreases IdsServed(data) - i
  {
    if i == IdsServed(data) {
      ServedEnd(data, valid);
    } else {
      EntriesServed(data, i + 1, valid);
      OneEntry(data, i, valid);
      ServedHere(data, i, valid, EntriesFrom(data, i + 1, valid), EntriesFrom(data, i, valid));
    }
  }

  lemma ServedHere(data: Bytes, i: nat, valid: PeerId -> bool, rest: Outcome<(seq<PeerId>, seq<nat>)>,
                   r: Outcome<(seq<PeerId>, seq<nat>)>)
    requires i < IdsServed(data) && ServedFrom(data, i + 1, valid, rest)
    requires r == if valid(IdAt(data, i)) then Prefixed([IdAt(data, i)], [IndexAt(data, i)], rest) else Panicked
    ensures ServedFrom(data, i, valid, r)
  {
    if valid(IdAt(data, i)) {
      ServedNext(data, i, valid, rest);
    }
  }

  lemma ServedNext(data: Bytes, i: nat, valid: PeerId -> bool, r: Outcome<(seq<PeerId>, seq<nat>)>)
    requires i < IdsServed(data) && valid(IdAt(data, i)) && ServedFrom(data, i + 1, valid, r)
    ensures ServedFrom(data, i, valid, Prefixed([IdAt(data, i)], [IndexAt(data, i)], r))
  {
  }

  /** What any bytes decode to: a panic exactly if one of the ids served is malformed,
      else the ids served, sorted, and the indexes behind them, in the order read. */
  lemma DecodedBytes(data: Bytes, local: PeerId, valid: PeerId -> bool) returns (ids: seq<PeerId>)
    ensures Decoded(data, local, valid).Panicked? <==> exists j :: 0 <= j < IdsServed(data) && !valid(IdAt(data, j))
    ensures |ids| == IdsServed(data) && forall j :: 0 <= j < |ids| ==> ids[j] == IdAt(data, j)
    ensures Decoded(data, local, valid).Done? ==>
      var p := Decoded(data, local, valid).value;
      && p.local == local && p.peers == Sort(ids)
      && |p.indexes| == |ids| && forall j :: 0 <= j < |ids| ==> p.indexes[j] == IndexAt(data, j)
  {
    EntriesServed(data, 0, valid);
    assert EntriesFrom(data, 0, valid) == Entries(data, BufIo.Cursor(0, 0), valid);
    ids := seq(IdsServed(data), j requires 0 <= j < IdsServed(data) => IdAt(data, j));
    var r := Entries(data, BufIo.Cursor(0, 0), valid);
    if r.Done? {
      assert forall j :: 0 <= j < IdsServed(data) ==> r.value.0[j - 0] == IdAt(data, j);
      assert r.value.0 == ids;
      assert forall j :: 0 <= j < IdsServed(data) ==> r.value.1[j - 0] == IndexAt(data, j);
    }
  }

  lemma ServedOfFlat(peers: seq<PeerId>, indexes: seq<nat>)
    requires Ids(peers) && |peers| <= |indexes|
    ensures var data := Flat(peers, indexes);
      && IdsServed(data) == BufIo.Min(|peers|, MAX_PEERS)
      && (forall j :: 0 <= j < IdsServed(data) ==> IdAt(data, j) == peers[j])
      && (forall j :: 0 <= j < IdsServed(data) ==> IndexAt(data, j) == indexes[j] % 256)
  {
    FlatAt(peers, indexes, 0);
    forall j | 0 <= j < IdsServed(Flat(peers, indexes))
      ensures IdAt(Flat(peers, indexes), j) == peers[j] && IndexAt(Flat(peers, indexes), j) == indexes[j] % 256
    {
      FlatAt(peers, indexes, j);
    }
  }

  lemma DecodeServed(data: Bytes, peers: seq<PeerId>, indexes: seq<nat>, m: nat, local: PeerId, valid: PeerId -> bool)
    requires m == IdsServed(data) && m <= |peers| <= |indexes|
    requires forall j :: 0 <= j < m ==> IdAt(data, j) == peers[j] && valid(peers[j])
    requires forall j :: 0 <= j < m ==> IndexAt(data, j) == indexes[j] % 256
    ensures Decoded(data, local, valid) == Done(Peerset(local, Sort(peers[..m]), LowBytes(indexes)[..m]))
  {
    var ids := DecodedBytes(data, local, valid);
    assert ids == peers[..m];
    SameIndexes(data, Decoded(data, local, valid).value.indexes, indexes, m);
  }

  lemma SameIndexes(data: Bytes, read: seq<nat>, indexes: seq<nat>, m: nat)
    requires m == IdsServed(data) == |read| <= |indexes|
    requires forall j :: 0 <= j < m ==> read[j] == IndexAt(data, j) == indexes[j] % 256
    ensures read == LowBytes(indexes)[..m]
  {
  }

  /** Decoding an encoded peerset gives back its first MAX_PEERS entries, the
      peers sorted, the indexes cut to a byte. */
  lemma DecodeOfEncode(p: Peerset, local: PeerId, valid: PeerId -> bool)
    requires Ids(p.peers) && |p.peers| <= |p.indexes|
    requires forall x :: x in p.peers ==> valid(x)
    ensures var m := BufIo.Min(|p.peers|, MAX_PEERS);
            Decoded(Flat(p.peers, p.indexes), local, valid)
            == Done(Peerset(local, Sort(p.peers[..m]), LowBytes(p.indexes)[..m]))
  {
    ServedOfFlat(p.peers, p.indexes);
    DecodeServed(Flat(p.peers, p.indexes), p.peers, p.indexes, BufIo.Min(|p.peers|, MAX_PEERS), local, valid);
  }

  /** A sorted list of peers with one index each, every index a byte, all
      entries within one buffer of the reader. */
  ghost predicate Encodable(p: Peerset) {
    && Sorted(p.peers)
    && |p.indexes| == |p.peers|
    && (forall i :: 0 <= i < |p.indexes| ==> p.indexes[i] < 256)
    && ENTRY * |p.peers| <= BufIo.CAPACITY
  }

  lemma LowBytesOfBytes(s: seq<nat>)
    requires forall i :: 0 <= i < |s| ==> s[i] < 256
    ensures LowBytes(s)[..|s|] == s
  {
    assert forall i :: 0 <= i < |s| ==> s[i] % 256 == s[i];
  }

  lemma EncodableRoundTrips(p: Peerset, local: PeerId, valid: PeerId -> bool)
    requires Ids(p.peers) && Encodable(p)
    requires forall x :: x in p.peers ==> valid(x)
    ensures Decoded(Flat(p.peers, p.indexes), local, valid) == Done(p.(local := local))
  {
    var k := |p.peers|;
    assert BufIo.Min(k, MAX_PEERS) == k;
    DecodeOfEncode(p, local, valid);
    SortSorted(p.peers);
    assert p.peers[..k] == p.peers;
    LowBytesOfBytes(p.indexes);
  }

  lemma RoundTripsOnlyEncodable(p: Peerset, valid: PeerId -> bool)
    requires Ids(p.peers) && |p.peers| <= |p.indexes|
    requires forall x :: x in p.peers ==> valid(x)
    requires Decoded(Flat(p.peers, p.indexes), p.local, valid) == Done(p)
    ensures Encodable(p)
  {
    DecodeOfEncode(p, p.local, valid);
    var m := BufIo.Min(|p.peers|, MAX_PEERS);
    assert |Sort(p.peers[..m])| == m;
    forall i | 0 <= i < |p.indexes| ensures p.indexes[i] < 256 {
      assert p.indexes[i] == LowBytes(p.indexes)[..m][i];
    }
  }

  /** The round trip holds exactly for encodable peersets. */
  lemma RoundTrip(p: Peerset, valid: PeerId -> bool)
    requires Ids(p.peers) && |p.peers| <= |p.indexes|
    requires forall x :: x in p.peers ==> valid(x)
    ensures Decoded(Flat(p.peers, p.indexes), p.local, valid) == Done(p) <==> Encodable(p)
  {
    if Encodable(p) {
      EncodableRoundTrips(p, p.local, valid);
    } else if Decoded(Flat(p.peers, p.indexes), p.local, valid) == Done(p) {
      RoundTripsOnlyEncodable(p, valid);
    }
  }

  // ---------- cached indexes ----------

  /** The indexes the cache holds for the given peers, in their order; peers the
      cache does not know are skipped. */
  function Recovered(peers: seq<PeerId>, cache: Peerset): (r: seq<nat>)
    requires |cache.peers| <= |cache.indexes|
  {
    if peers == [] then [] else CachedIndex(peers[0], cache) + Recovered(peers[1..], cache)
  }

  function CachedIndex(peer: PeerId, cache: Peerset): (r: seq<nat>)
    requires |cache.peers| <= |cache.indexes|
    ensures |r| == if peer in cache.peers then 1 else 0
  {
    match IndexOf(cache, peer)
    case Some(i) => [cache.indexes[i]]
    case None => []
  }

  lemma {:induction false} RecoveredAppend(a: seq<PeerId>, b: seq<PeerId>, cache: Peerset)
    requires |cache.peers| <= |cache.indexes|
    ensures Recovered(a + b, cache) == Recovered(a, cache) + Recovered(b, cache)
  {
    if a == [] {
      assert a + b == b;
    } else {
      RecoveredAppend(a[1..], b, cache);
      TailOfSum(a, b);
      SumAssociates(CachedIndex(a[0], cache), Recovered(a[1..], cache), Recovered(b, cache));
    }
  }

  lemma RecoveredNext(peers: seq<PeerId>, i: nat, cache: Peerset)
    requires |cache.peers| <= |cache.indexes| && i < |peers|
    ensures Recovered(peers[..i + 1], cache) == Recovered(peers[..i], cache) + CachedIndex(peers[i], cache)
  {
    assert peers[..i + 1] == peers[..i] + [peers[i]];
    RecoveredAppend(peers[..i], [peers[i]], cache);
    assert Recovered([peers[i]], cache) == CachedIndex(peers[i], cache) + Recovered([], cache);
  }

  /** Replaces the session's indexes by the cached ones. A read that fails leaves
      them alone. */
  method RecoverFromCache(p: Peerset, cached: Option<Peerset>) returns (r: Result<Peerset, ()>)
    requires cached.Some? ==> |cached.value.peers| <= |cached.value.indexes|
    ensures cached.None? ==> r == Err(())
    ensures cached.Some? ==> r == Ok(p.(indexes := Recovered(Sort(p.peers), cached.value)))
  {
    if cached.None? {
      return Err(());
    }
    var cache := cached.value;
    var indexes := [];
    var order := Sort(p.peers);
    for i := 0 to |order|
      invariant indexes == Recovered(order[..i], cache)
    {
      var at := IndexOf(cache, order[i]);
      if at.Some? {
        indexes := indexes + [cache.indexes[at.value]];
      }
      RecoveredNext(order, i, cache);
    }
    assert order[..|order|] == order;
    return Ok(p.(indexes := indexes));
  }

  /** A cache written by a key generation over these peers. */
  ghost predicate KeygenCache(c: Peerset) {
    Sorted(c.peers) && Distinct(c.peers) && c.indexes == Identity(|c.peers|) && |c.peers| <= U16
  }

  /** No index is skipped exactly when the cache knows every session peer. */
  lemma {:induction false} RecoveredLength(peers: seq<PeerId>, cache: Peerset)
    requires |cache.peers| <= |cache.indexes|
    ensures |Recovered(peers, cache)| <= |peers|
    ensures |Recovered(peers, cache)| == |peers| <==> forall x :: x in peers ==> x in cache.peers
  {
    if peers == [] {
    } else {
      RecoveredLength(peers[1..], cache);
      assert peers == [peers[0]] + peers[1..];
      assert forall x :: x in peers <==> x == peers[0] || x in peers[1..];
    }
  }

  lemma {:induction false} RecoveredAt(peers: seq<PeerId>, cache: Peerset, j: nat)
    requires KeygenCache(cache)
    requires forall x :: x in peers ==> x in cache.peers
    requires j < |peers|
    ensures |Recovered(peers, cache)| == |peers|
    ensures Recovered(peers, cache)[j] < |cache.peers|
    ensures cache.peers[Recovered(peers, cache)[j]] == peers[j]
  {
    IndexInverse(cache);
    RecoveredLength(peers, cache);
    RecoveredLength(peers[1..], cache);
    if j == 0 {
    } else {
      RecoveredAt(peers[1..], cache, j - 1);
    }
  }

  lemma SortedPlaces(s: seq<PeerId>, a: nat, b: nat)
    requires Sorted(s) && a < |s| && b < |s|
    requires Le(s[a], s[b]) && s[a] != s[b]
    ensures a < b
  {
    LeTotal(s[a], s[b]);
  }

  /** Every signer recovers, for each session peer, its position in the key
      generation: as many as there are peers, strictly increasing, all below N. */
  lemma KeygenPositions(p: Peerset, cache: Peerset)
    requires KeygenCache(cache)
    requires Sorted(p.peers) && Distinct(p.peers)
    requires forall x :: x in p.peers ==> x in cache.peers
    ensures var r := Recovered(Sort(p.peers), cache);
            && |r| == |p.peers|
            && (forall j :: 0 <= j < |r| ==> r[j] < |cache.peers| && cache.peers[r[j]] == p.peers[j])
            && (forall i, j :: 0 <= i < j < |r| ==> r[i] < r[j])
  {
    SortSorted(p.peers);
    var r := Recovered(p.peers, cache);
    RecoveredLength(p.peers, cache);
    forall j | 0 <= j < |r| ensures r[j] < |cache.peers| && cache.peers[r[j]] == p.peers[j] {
      RecoveredAt(p.peers, cache, j);
    }
    forall i, j | 0 <= i < j < |r| ensures r[i] < r[j] {
      SortedPlaces(cache.peers, r[i], r[j]);
    }
  }
}
