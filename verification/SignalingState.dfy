/** The two maps the connections share, updated in place by the lock sections. */
module SignalingState {
  import opened Common
  import opened Signaling

  class AppState {
    const maxConnections: nat
    const maxRequests: nat
    var txMap: Rooms
    var requestCounts: Counts

    constructor (maxConnections: nat, maxRequests: nat)
      ensures this.maxConnections == maxConnections && this.maxRequests == maxRequests
      ensures txMap == map[] && requestCounts == map[]
    {
      this.maxConnections, this.maxRequests := maxConnections, maxRequests;
      txMap, requestCounts := map[], map[];
    }

    /** `u32` counters cannot overflow: a counter is raised only while below the limit. */
    method ProtectDdosRequestCount(g: GroupKey) returns (ok: bool)
      modifies this`requestCounts
      ensures (ok, requestCounts) == Protect(old(requestCounts), g, maxRequests)
    {
      if g !in requestCounts {
        requestCounts := requestCounts[g := 0];
      }
      var count := requestCounts[g];
      assert requestCounts == old(requestCounts)[g := CountIn(old(requestCounts), g)];
      if count >= maxRequests { return false; }
      requestCounts := requestCounts[g := count + 1];
      assert requestCounts == old(requestCounts)[g := CountIn(old(requestCounts), g) + 1];
      ok := true;
    }

    method ConnectLocked(g: GroupKey, p: PeerId, info: Info) returns (peers: Option<map<PeerId, Info>>)
      modifies this
      ensures (peers, txMap, requestCounts)
        == ConnectSection(old(txMap), old(requestCounts), maxConnections, maxRequests, g, p, info)
    {
      if g !in txMap {
        txMap := txMap[g := map[]];
      }
      var local := txMap[g];
      assert RoomIn(old(txMap), g) == local;
      assert txMap == old(txMap)[g := local];
      if |local| >= maxConnections { return None; }
      var ok := ProtectDdosRequestCount(g);
      if !ok { return None; }
      peers := Some(local);
      txMap := txMap[g := local[p := info]];
      assert txMap == old(txMap)[g := local[p := info]];
    }

    method UpdateLocked(g: GroupKey, p: PeerId, info: Info) returns (others: set<PeerId>)
      modifies this`txMap
      ensures (others, txMap) == UpdateSection(old(txMap), g, p, info)
    {
      others := {};
      if g in txMap {
        if p in txMap[g] {
          txMap := txMap[g := txMap[g][p := info]];
          others := set k | k in txMap[g] && k != p;
          assert others == old(txMap)[g].Keys - {p};
        }
      }
    }

    method TargetLocked(g: GroupKey, target: PeerId) returns (found: bool)
      ensures found == (target in RoomIn(txMap, g))
    {
      found := g in txMap && target in txMap[g];
    }

    method CleanupLocked(g: GroupKey, p: PeerId) returns (remaining: set<PeerId>)
      modifies this`txMap
      ensures (remaining, txMap) == CleanupSection(old(txMap), g, p)
    {
      remaining := {};
      if g in txMap {
        var local := txMap[g] - {p};
        assert local.Keys == txMap[g].Keys - {p};
        if local == map[] {
          assert local.Keys == {};
          txMap := txMap - {g};
        } else {
          remaining := local.Keys;
          txMap := txMap[g := local];
        }
      }
    }

    /** The hourly job. */
    method Clear()
      modifies this`requestCounts
      ensures requestCounts == map[]
    {
      requestCounts := map[];
    }
  }
}
