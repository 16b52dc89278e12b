/** The local tunnel table and request correlation (app/services/tunnel_manager.py). */
module Manager {
  import opened Common
  import opened KvStore
  import opened Registry
  import opened Transport

  /** The heartbeat task of a tunnel: not yet started, running, returned on its
      own, or cancelled while it ran. */
  datatype TaskState = NoTask | Running | Finished | Cancelled

  /** One live agent connection on this pod. */
  class Tunnel {
    const tunnelId: string
    const websocket: WebSocket
    var lastPong: int
    var heartbeatTask: TaskState

    /** `last_pong` starts at the event-loop time of creation. */
    constructor (tunnelId: string, websocket: WebSocket, now: int)
      ensures this.tunnelId == tunnelId && this.websocket == websocket
      ensures lastPong == now && heartbeatTask == NoTask
    {
      this.tunnelId := tunnelId;
      this.websocket := websocket;
      lastPong := now;
      heartbeatTask := NoTask;
    }
  }

  /** The single-assignment slot a waiting HTTP request is parked on. */
  class Future {
    var result: Option<Message>
    var cancelled: bool

    predicate Done() reads this {
      result.Some? || cancelled
    }

    constructor ()
      ensures result == None && !cancelled
    {
      result := None;
      cancelled := false;
    }

    /** Setting the result of a done future is an error in asyncio; callers check first. */
    method SetResult(m: Message)
      requires !Done()
      modifies this
      ensures result == Some(m) && !cancelled
    {
      result := Some(m);
    }

    /** Cancelling a done future changes nothing. */
    method Cancel()
      modifies this
      ensures old(Done()) ==> result == old(result) && cancelled == old(cancelled)
      ensures !old(Done()) ==> result == None && cancelled
    {
      if !Done() {
        cancelled := true;
      }
    }
  }

  datatype Registration =
    | Registered(tunnel: Tunnel)
      /** The `ValueError` raised when the registry refuses ownership. */
    | AlreadyRegistered(message: string)
      /** The registry's `RuntimeError`, which the manager lets through. */
    | RegistryUnavailable(message: string)

  function AlreadyRegisteredMessage(tunnelId: string): string {
    "Tunnel " + tunnelId + " already registered on another pod"
  }

  /** No future waits under two request ids. */
  ghost predicate DistinctFutures(pending: map<string, Future>) {
    forall a, b | a in pending && b in pending && a != b :: pending[a] != pending[b]
  }

  /** The futures of a pending-request table. */
  function FuturesOf(pending: map<string, Future>): set<Future> {
    set k | k in pending :: pending[k]
  }

  /** Every entry of `a` is an entry of `b`. */
  ghost predicate SubTable(a: map<string, Future>, b: map<string, Future>) {
    forall k | k in a :: k in b && a[k] == b[k]
  }

  class TunnelManager {
    /** `active_tunnels`: tunnel id to its local connection. */
    var activeTunnels: map<string, Tunnel>
    /** `pending_requests`: one global map, request id to its waiting future. */
    var pendingRequests: map<string, Future>
    /** The process-wide registry this manager registers through. */
    const registry: TunnelRegistry

    ghost predicate Valid() reads this {
      && registry.registryTtl > 0 && registry.slugCacheTtl > 0
      && (forall id | id in activeTunnels :: activeTunnels[id].tunnelId == id)
      && DistinctFutures(pendingRequests)
    }

    constructor (registry: TunnelRegistry)
      requires registry.registryTtl > 0 && registry.slugCacheTtl > 0
      ensures Valid() && this.registry == registry
      ensures activeTunnels == map[] && pendingRequests == map[]
    {
      this.registry := registry;
      activeTunnels := map[];
      pendingRequests := map[];
    }

    /** Claims ownership in the shared registry first, and stores the tunnel locally only when that succeeds. */
    method RegisterTunnel(tunnelId: string, websocket: WebSocket, now: int) returns (r: Registration)
      requires Valid()
      modifies this, registry.redis
      ensures Valid()
      ensures pendingRequests == old(pendingRequests)
      ensures !registry.Ready() ==> r == RegistryUnavailable("TunnelRegistry not connected")
      ensures !registry.Ready() && registry.redis != null ==> registry.redis.data == old(registry.redis.data)
      ensures registry.Ready() ==>
        var (s, claimed) := RegisterEffect(old(registry.redis.data), registry.podId.value, tunnelId,
                                           registry.registryTtl, registry.redis.clock);
        registry.redis.data == s && (claimed <==> r.Registered?)
      ensures registry.Ready() && !r.Registered? ==> r == AlreadyRegistered(AlreadyRegisteredMessage(tunnelId))
      ensures r.Registered? ==>
        && fresh(r.tunnel)
        && r.tunnel.tunnelId == tunnelId && r.tunnel.websocket == websocket
        && r.tunnel.lastPong == now && r.tunnel.heartbeatTask == NoTask
        && activeTunnels == old(activeTunnels)[tunnelId := r.tunnel]
      ensures !r.Registered? ==> activeTunnels == old(activeTunnels)
      ensures registry.redis != null ==> registry.redis.clock == old(registry.redis.clock)
    {
      var registered := registry.RegisterTunnel(tunnelId);
      if registered.RuntimeError? {
        return RegistryUnavailable(registered.message);
      }
      if !registered.value {
        return AlreadyRegistered(AlreadyRegisteredMessage(tunnelId));
      }
      var tunnel := new Tunnel(tunnelId, websocket, now);
      activeTunnels := activeTunnels[tunnelId := tunnel];
      r := Registered(tunnel);
    }

    /** Drops the local entry (cancelling its heartbeat, which only affects a task
        still running), then deregisters in the
        shared registry whether or not there was a local entry. Pending requests
        are left as they are. */
    method RemoveTunnel(tunnelId: string)
      requires Valid()
      modifies this, registry.redis, if tunnelId in activeTunnels then {activeTunnels[tunnelId]} else {}
      ensures Valid()
      ensures activeTunnels == old(activeTunnels) - {tunnelId}
      ensures pendingRequests == old(pendingRequests)
      ensures tunnelId in old(activeTunnels) ==>
        old(activeTunnels)[tunnelId].heartbeatTask ==
          (if old(activeTunnels[tunnelId].heartbeatTask) == Running then Cancelled
           else old(activeTunnels[tunnelId].heartbeatTask))
      ensures tunnelId in old(activeTunnels) ==>
        old(activeTunnels)[tunnelId].lastPong == old(activeTunnels[tunnelId].lastPong)
      ensures registry.Ready() ==>
        registry.redis.data == RemoveEffect(old(registry.redis.data), registry.podId.value, tunnelId)
      ensures !registry.Ready() && registry.redis != null ==> registry.redis.data == old(registry.redis.data)
      ensures registry.redis != null ==> registry.redis.clock == old(registry.redis.clock)
    {
      if tunnelId in activeTunnels {
        var tunnel := activeTunnels[tunnelId];
        activeTunnels := activeTunnels - {tunnelId};
        if tunnel.heartbeatTask == Running {
          tunnel.heartbeatTask := Cancelled;
        }
      }
      registry.RemoveTunnel(tunnelId);
    }

    method GetTunnel(tunnelId: string) returns (ws: WebSocket?)
      requires Valid()
      ensures ws != null <==> tunnelId in activeTunnels
      ensures ws != null ==> ws == activeTunnels[tunnelId].websocket
    {
      if tunnelId in activeTunnels {
        return activeTunnels[tunnelId].websocket;
      }
      return null;
    }

    /** Which pod the shared registry says owns the tunnel. */
    method GetTunnelPod(tunnelId: string) returns (pod: Option<string>)
      ensures registry.redis == null ==> pod == None
      ensures registry.redis != null ==> pod == Get(registry.redis.data, TunnelKey(tunnelId), registry.redis.clock)
    {
      pod := registry.GetTunnelPod(tunnelId);
    }

    /** Parks a fresh, unresolved future under the request id. */
    method CreatePendingRequest(requestId: string) returns (f: Future)
      requires Valid()
      modifies this
      ensures Valid()
      ensures fresh(f) && !f.Done()
      ensures pendingRequests == old(pendingRequests)[requestId := f]
      ensures activeTunnels == old(activeTunnels)
    {
      f := new Future();
      pendingRequests := pendingRequests[requestId := f];
    }

    /** Pops the request's future and fulfils it only if it was still waiting; an
        unknown id changes nothing, so a repeated response is dropped. */
    method ResolveRequest(requestId: string, data: Message)
      requires Valid()
      modifies this, if requestId in pendingRequests then {pendingRequests[requestId]} else {}
      ensures Valid()
      ensures pendingRequests == old(pendingRequests) - {requestId}
      ensures activeTunnels == old(activeTunnels)
      ensures requestId in old(pendingRequests) && !old(pendingRequests[requestId].Done()) ==>
        old(pendingRequests)[requestId].result == Some(data) && !old(pendingRequests)[requestId].cancelled
      ensures requestId in old(pendingRequests) && old(pendingRequests[requestId].Done()) ==>
        unchanged(old(pendingRequests)[requestId])
    {
      if requestId in pendingRequests {
        var future := pendingRequests[requestId];
        pendingRequests := pendingRequests - {requestId};
        if !future.Done() {
          future.SetResult(data);
        }
      }
    }

    /** Records a pong at `now` for a tunnel that is present; otherwise nothing. */
    method SetPong(tunnelId: string, now: int)
      requires Valid()
      modifies if tunnelId in activeTunnels then {activeTunnels[tunnelId]} else {}
      ensures tunnelId in activeTunnels ==> activeTunnels[tunnelId].lastPong == now
      ensures tunnelId in activeTunnels ==>
        activeTunnels[tunnelId].heartbeatTask == old(activeTunnels[tunnelId].heartbeatTask)
    {
      if tunnelId in activeTunnels {
        activeTunnels[tunnelId].lastPong := now;
      }
    }
  }
}
