/** src/network/connections.go: the list of known peers, kept free of two
    entries for one endpoint (IP address and port). */
module Network {
  import opened Numeric
  import opened Wrappers

  /** `NetworkMetaData` of src/network/message.go. */
  datatype NetworkMetaData = NetworkMetaData(ip: string, port: string, name: string, publicKey: seq<byte>, walletAddr: seq<byte>)

  /** Two entries name the same peer when IP and port agree; name and keys
      play no part. */
  predicate SameEndpoint(a: NetworkMetaData, b: NetworkMetaData) {
    a.ip == b.ip && a.port == b.port
  }

  predicate HasPeer(pool: seq<NetworkMetaData>, p: NetworkMetaData) {
    exists i :: 0 <= i < |pool| && SameEndpoint(pool[i], p)
  }

  predicate EndpointsDistinct(pool: seq<NetworkMetaData>) {
    forall i, j :: 0 <= i < j < |pool| ==> !SameEndpoint(pool[i], pool[j])
  }

  /** The pool after offering `p`: unchanged if its endpoint is known,
      otherwise `p` at the end. */
  function Offer(pool: seq<NetworkMetaData>, p: NetworkMetaData): seq<NetworkMetaData> {
    if HasPeer(pool, p) then pool else pool + [p]
  }

  /** Offering keeps the endpoints distinct. */
  lemma OfferKeepsDistinct(pool: seq<NetworkMetaData>, p: NetworkMetaData)
    requires EndpointsDistinct(pool)
    ensures EndpointsDistinct(Offer(pool, p))
  {
    if !HasPeer(pool, p) {
      var r := pool + [p];
      forall i, j | 0 <= i < j < |r|
        ensures !SameEndpoint(r[i], r[j])
      {
        if j == |pool| {
          assert r[i] == pool[i] && r[j] == p;
        } else {
          assert r[i] == pool[i] && r[j] == pool[j];
        }
      }
    }
  }

  /** After offering `p`, an endpoint is known iff it was known before or it
      is `p`'s. */
  lemma OfferHasPeer(pool: seq<NetworkMetaData>, p: NetworkMetaData, q: NetworkMetaData)
    ensures HasPeer(Offer(pool, p), q) <==> HasPeer(pool, q) || SameEndpoint(p, q)
  {
    var r := Offer(pool, p);
    if HasPeer(pool, p) {
      if SameEndpoint(p, q) {
        var i :| 0 <= i < |pool| && SameEndpoint(pool[i], p);
        assert SameEndpoint(pool[i], q);
      }
    } else {
      if HasPeer(r, q) {
        var i :| 0 <= i < |r| && SameEndpoint(r[i], q);
        if i < |pool| {
          assert r[i] == pool[i];
        }
      }
      if HasPeer(pool, q) {
        var i :| 0 <= i < |pool| && SameEndpoint(pool[i], q);
        assert r[i] == pool[i];
      }
      if SameEndpoint(p, q) {
        assert r[|pool|] == p;
      }
    }
  }

  /** The pool built by offering `peers` one by one to an empty pool. */
  function OfferAll(peers: seq<NetworkMetaData>): seq<NetworkMetaData> {
    if peers == [] then [] else Offer(OfferAll(peers[..|peers| - 1]), peers[|peers| - 1])
  }

  /** A pool built only by offering never holds one endpoint twice, and knows
      exactly the endpoints offered. */
  lemma {:induction false} OfferAllDistinct(peers: seq<NetworkMetaData>, q: NetworkMetaData)
    ensures EndpointsDistinct(OfferAll(peers))
    ensures HasPeer(OfferAll(peers), q) <==> exists k :: 0 <= k < |peers| && SameEndpoint(peers[k], q)
  {
    if peers != [] {
      var init := peers[..|peers| - 1];
      var last := peers[|peers| - 1];
      OfferAllDistinct(init, q);
      OfferKeepsDistinct(OfferAll(init), last);
      OfferHasPeer(OfferAll(init), last, q);
      if exists k :: 0 <= k < |peers| && SameEndpoint(peers[k], q) {
        var k :| 0 <= k < |peers| && SameEndpoint(peers[k], q);
        if k < |init| {
          assert init[k] == peers[k];
        }
      }
      if exists k :: 0 <= k < |init| && SameEndpoint(init[k], q) {
        var k :| 0 <= k < |init| && SameEndpoint(init[k], q);
        assert peers[k] == init[k];
      }
    }
  }

  class ConnectionPool {
    var pool: seq<NetworkMetaData>

    /** `InitializeConnectionPool`: no peers. */
    constructor()
      ensures pool == []
    {
      pool := [];
    }

    /** `AddPeer`: appends the peer unless its endpoint is already known;
        the answer says whether it was added. */
    method AddPeer(p: NetworkMetaData) returns (added: bool)
      modifies this
      ensures added <==> !HasPeer(old(pool), p)
      ensures pool == Offer(old(pool), p)
    {
      var i := 0;
      while i < |pool|
        invariant 0 <= i <= |pool|
        invariant forall k :: 0 <= k < i ==> !SameEndpoint(pool[k], p)
      {
        if pool[i].ip == p.ip && pool[i].port == p.port {
          return false;
        }
        i := i + 1;
      }
      pool := pool + [p];
      return true;
    }

    /** `ExistsPeer`: whether some entry has the peer's endpoint. */
    method ExistsPeer(p: NetworkMetaData) returns (found: bool)
      ensures found <==> HasPeer(pool, p)
    {
      var i := 0;
      while i < |pool|
        invariant 0 <= i <= |pool|
        invariant forall k :: 0 <= k < i ==> !SameEndpoint(pool[k], p)
      {
        if pool[i].ip == p.ip && pool[i].port == p.port {
          return true;
        }
        i := i + 1;
      }
      return false;
    }

    /** `GetAlivePeers`: `count` picks from the pool, repeats allowed. Draw
        `k` of the random source picks entry `draws[k] % |pool|`. None is the
        panic of drawing from an empty pool. */
    method GetAlivePeers(count: int, draws: seq<nat>) returns (r: Option<seq<NetworkMetaData>>)
      requires count <= |draws|
      ensures r.None? <==> count > 0 && pool == []
      ensures r.Some? ==> |r.value| == (if count > 0 then count else 0)
      ensures r.Some? ==> forall k :: 0 <= k < |r.value| ==> r.value[k] in pool
      ensures r.Some? ==> forall k :: 0 <= k < |r.value| ==> r.value[k] == pool[draws[k] % |pool|]
    {
      var picked: seq<NetworkMetaData> := [];
      var i := 0;
      while i < count
        invariant 0 <= i <= (if count > 0 then count else 0)
        invariant |picked| == i
        invariant i > 0 ==> pool != []
        invariant forall k :: 0 <= k < i ==> picked[k] == pool[draws[k] % |pool|]
      {
        if |pool| == 0 {
          return None;
        }
        picked := picked + [pool[draws[i] % |pool|]];
        i := i + 1;
      }
      return Some(picked);
    }
  }
}
