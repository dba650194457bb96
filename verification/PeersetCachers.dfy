/** The room-by-room store of a session's peerset, in memory or as bytes. */
module PeersetCachers {
  import opened Basics
  import opened PeerOrder
  import opened Peersets
  import BufIo

  type RoomId = string

  class EphemeralCacher {
    var store: map<RoomId, Peerset>

    constructor ()
      ensures store == map[]
    {
      store := map[];
    }

    method ReadPeerset(room: RoomId) returns (r: Option<Peerset>)
      ensures r == if room in store then Some(store[room]) else None
    {
      r := if room in store then Some(store[room]) else None;
    }

    method WritePeerset(room: RoomId, p: Peerset)
      modifies this
      ensures store == old(store)[room := p]
    {
      store := store[room := p];
    }
  }

  /** What a read of the stored bytes comes to. */
  function Cached(files: map<RoomId, Bytes>, room: RoomId, local: PeerId,
                  valid: PeerId -> bool): (r: Outcome<Option<Peerset>>) {
    if room !in files then Done(None)
    else match Decoded(files[room], local, valid)
         case Panicked => Panicked
         case Done(p) => Done(Some(p))
  }

  class PersistentCacher {
    const local: PeerId
    var files: map<RoomId, Bytes>

    constructor (local: PeerId)
      ensures this.local == local && files == map[]
    {
      this.local := local;
      files := map[];
    }

    method ReadPeerset(room: RoomId, valid: PeerId -> bool) returns (r: Outcome<Option<Peerset>>)
      ensures r == Cached(files, room, local, valid)
    {
      if room !in files {
        return Done(None);
      }
      var p := FromBytes(files[room], local, valid);
      r := match p case Panicked => Panicked case Done(q) => Done(Some(q));
    }

    method WritePeerset(room: RoomId, p: Peerset)
      requires |p.peers| <= |p.indexes|
      modifies this
      ensures files == old(files)[room := Flat(p.peers, p.indexes)]
    {
      var bytes := Peersets.ToBytes(p);
      files := files[room := bytes];
    }
  }

  /** What is written under a room is what is read there next, and other rooms read as before. */
  method EphemeralReadAfterWrite(cacher: EphemeralCacher, room: RoomId, p: Peerset, other: RoomId)
    returns (written: Option<Peerset>, before: Option<Peerset>, after: Option<Peerset>)
    modifies cacher
    ensures written == Some(p)
    ensures other != room ==> after == before
    ensures before.Some? <==> other in old(cacher.store)
    ensures cacher.store.Keys == old(cacher.store).Keys + {room}
  {
    before := cacher.ReadPeerset(other);
    cacher.WritePeerset(room, p);
    written := cacher.ReadPeerset(room);
    after := cacher.ReadPeerset(other);
  }

  /** Through the file, the peerset written under a room is read back there exactly
      when it is encodable, as seen by the reading node; other rooms read as before. */
  method PersistentReadAfterWrite(cacher: PersistentCacher, room: RoomId, p: Peerset, other: RoomId,
                                  valid: PeerId -> bool)
    returns (written: Outcome<Option<Peerset>>, before: Outcome<Option<Peerset>>, after: Outcome<Option<Peerset>>)
    requires Ids(p.peers) && |p.peers| <= |p.indexes| && forall x :: x in p.peers ==> valid(x)
    modifies cacher
    ensures written == Done(Some(p.(local := cacher.local))) <==> Encodable(p)
    ensures other != room ==> after == before
    ensures before == Done(None) <==> other !in old(cacher.files)
  {
    before := cacher.ReadPeerset(other, valid);
    cacher.WritePeerset(room, p);
    written := cacher.ReadPeerset(room, valid);
    after := cacher.ReadPeerset(other, valid);
    Peersets.RoundTrip(p.(local := cacher.local), valid);
  }

  /** Distinct, well-formed peers, no more than one buffer of the reader holds. */
  ghost predicate Party(peers: seq<PeerId>, valid: PeerId -> bool) {
    && Distinct(peers)
    && Ids(peers)
    && (forall x :: x in peers ==> valid(x))
    && ENTRY * |peers| <= BufIo.CAPACITY
  }

  lemma NewIsEncodable(peers: seq<PeerId>, local: PeerId, valid: PeerId -> bool)
    requires Party(peers, valid)
    ensures var p := New(peers, local);
      Encodable(p) && KeygenCache(p) && Ids(p.peers) && Elems(p.peers) == Elems(peers)
      && forall x :: x in p.peers ==> valid(x)
  {
    var p := New(peers, local);
    SortKeepsDistinct(peers);
    forall x | x in p.peers ensures x in peers && valid(x) {
      assert x in Elems(Sort(peers));
    }
    forall i | 0 <= i < |p.peers| ensures |p.peers[i]| == ID {
      assert p.peers[i] in peers;
      var j :| 0 <= j < |peers| && peers[j] == p.peers[i];
    }
  }

  /** Signing after key generation. The room's cache was written by a key
      generation over `keygen`; any signing session over some of those peers
      recovers, on every signer, one index a peer, which is the peer's place in
      the key generation's list, in increasing order. */
  lemma SigningIndexes(room: RoomId, keygen: seq<PeerId>, writer: PeerId, signers: seq<PeerId>,
                       files: map<RoomId, Bytes>, a: PeerId, b: PeerId, valid: PeerId -> bool)
    requires Party(keygen, valid)
    requires Distinct(signers) && forall x :: x in signers ==> x in keygen
    requires room in files && files[room] == Flat(New(keygen, writer).peers, New(keygen, writer).indexes)
    ensures var (p, q) := (New(signers, a), New(signers, b));
      match (Cached(files, room, a, valid), Cached(files, room, b, valid))
      case (Done(Some(ca)), Done(Some(cb))) =>
        var r := Recovered(Sort(p.peers), ca);
        && r == Recovered(Sort(q.peers), cb)
        && |r| == |signers|
        && (forall j :: 0 <= j < |r| ==> r[j] < |keygen| && Sort(keygen)[r[j]] == p.peers[j])
        && (forall i, j :: 0 <= i < j < |r| ==> r[i] < r[j])
      case _ => false
  {
    var k := New(keygen, writer);
    NewIsEncodable(keygen, writer, valid);
    EncodableRoundTrips(k, a, valid);
    EncodableRoundTrips(k, b, valid);
    SortKeepsDistinct(signers);
    var p := New(signers, a);
    forall x | x in p.peers ensures x in k.peers {
      assert x in Elems(p.peers);
      assert x in Elems(k.peers);
    }
    KeygenPositions(p, k.(local := a));
    RecoveredIgnoresLocal(Sort(p.peers), k, a, b);
  }

  lemma {:induction false} RecoveredIgnoresLocal(peers: seq<PeerId>, cache: Peerset, a: PeerId, b: PeerId)
    requires |cache.peers| <= |cache.indexes|
    ensures Recovered(peers, cache.(local := a)) == Recovered(peers, cache.(local := b))
  {
    if peers == [] {
    } else {
      RecoveredIgnoresLocal(peers[1..], cache, a, b);
    }
  }
}
