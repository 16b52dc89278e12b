/** The HTTP entry point (app/api/http_tunnel.py): a request to
    `/local_tunnel/{slug}/{path}` is routed by slug to a tunnel connected to this
    pod, sent to the agent as a request frame, and answered with the agent's
    response once the receive loop resolves its pending future.

    The decisions are stated as functions first (`SlugRoute`, `Delivery`,
    `BuildResponse`), and `ForwardRequest` is proved to follow them while it
    updates the cache, the pending-request table and the socket. */
module HttpTunnel {
  import opened Common
  import opened KvStore
  import opened Registry
  import opened Transport
  import opened ControlPlaneApi
  import opened ControlPlane
  import opened Manager

  // ---------------------------------------------------------------- response headers

  function LowerChar(c: char): char {
    if 'A' <= c <= 'Z' then (c as int + 32) as char else c
  }

  /** ASCII lower-casing of a header name. */
  function Lower(s: string): string {
    seq(|s|, i requires 0 <= i < |s| => LowerChar(s[i]))
  }

  /** The two headers the server recomputes for the body it sends, compared
      case-insensitively. */
  predicate IsFramingHeader(name: string) {
    Lower(name) == "content-length" || Lower(name) == "transfer-encoding"
  }

  /** The agent's response headers without the framing headers, in their order. */
  function FilterHeaders(hs: seq<(string, string)>): (r: seq<(string, string)>)
    ensures forall h :: h in r <==> h in hs && !IsFramingHeader(h.0)
    ensures |r| <= |hs|
  {
    if hs == [] then []
    else if IsFramingHeader(hs[0].0) then FilterHeaders(hs[1..])
    else [hs[0]] + FilterHeaders(hs[1..])
  }

  /** Filtering keeps order: it distributes over concatenation. */
  lemma {:induction false} FilterDistributes(a: seq<(string, string)>, b: seq<(string, string)>)
    ensures FilterHeaders(a + b) == FilterHeaders(a) + FilterHeaders(b)
  {
    if a == [] {
      assert a + b == b;
    } else {
      assert (a + b)[0] == a[0] && (a + b)[1..] == a[1..] + b;
      FilterDistributes(a[1..], b);
      if !IsFramingHeader(a[0].0) {
        assert [a[0]] + (FilterHeaders(a[1..]) + FilterHeaders(b)) == ([a[0]] + FilterHeaders(a[1..])) + FilterHeaders(b);
      }
    }
  }

  /** Filtering a filtered list changes nothing. */
  lemma {:induction false} FilterIdempotent(hs: seq<(string, string)>)
    ensures FilterHeaders(FilterHeaders(hs)) == FilterHeaders(hs)
  {
    if hs != [] {
      FilterIdempotent(hs[1..]);
      if !IsFramingHeader(hs[0].0) {
        assert ([hs[0]] + FilterHeaders(hs[1..]))[1..] == FilterHeaders(hs[1..]);
      }
    }
  }

  /** The response returned to the HTTP client. */
  datatype HttpResponse = HttpResponse(status: int, headers: seq<(string, string)>, body: string)

  /** The agent's response frame as an HTTP response: status 200 and an empty
      body when the frame has none, and no framing header. */
  function BuildResponse(m: Message): (r: HttpResponse)
    ensures m.status.Some? ==> r.status == m.status.value
    ensures m.status.None? ==> r.status == 200
    ensures m.body.Some? ==> r.body == m.body.value
    ensures m.body.None? ==> r.body == ""
    ensures forall h :: h in r.headers <==> m.headers.Some? && h in m.headers.value && !IsFramingHeader(h.0)
  {
    HttpResponse(m.status.GetOr(200), FilterHeaders(m.headers.GetOr([])), m.body.GetOr(""))
  }

  // ---------------------------------------------------------------- routing decisions

  /** An `HTTPException` the handler raises, with its status and detail. */
  datatype Failure = Failure(status: int, detail: string)

  datatype Reply =
    | Answered(response: HttpResponse)
    | Rejected(failure: Failure)
      /** A `RuntimeError` from the Control Plane client escaped the handler. */
    | Raised(message: string)

  const SlugNotFound := Failure(404, "Slug not found")
  const NotOnThisPod := Failure(503, "Tunnel not connected to this pod")
  const PayloadTooLarge := Failure(413, "Request payload too large for tunnel")
  const SendFailed := Failure(502, "Failed to send to tunnel")
  const TunnelTimeout := Failure(504, "Tunnel timeout")

  /** `not tunnel_id`: an empty cached id counts as a miss. */
  predicate CacheHit(cached: Option<string>) {
    cached.Some? && cached.value != ""
  }

  /** Where a slug leads: a tunnel id, or the reply that ends the request first. */
  datatype Route = Target(tunnelId: string) | Finish(reply: Reply)

  /** The slug lookup: a cache hit is used as it is, without asking the Control
      Plane and without any status check; on a miss, `resolve` is what the
      Control Plane client returned or raised, and only an "active" record routes. */
  function SlugRoute(cached: Option<string>, resolve: Outcome<Option<SlugRecord>>): (r: Route)
    ensures CacheHit(cached) ==> r == Target(cached.value)
    ensures !CacheHit(cached) ==>
      (r.Target? <==> resolve.Returned? && resolve.value.Some? && resolve.value.value.status == Some("active"))
    ensures !CacheHit(cached) && r.Target? ==> r.tunnelId == resolve.value.value.tunnelId
    ensures !CacheHit(cached) && resolve.RuntimeError? ==> r == Finish(Raised(resolve.message))
    ensures !CacheHit(cached) && resolve == Returned(None) ==> r == Finish(Rejected(SlugNotFound))
    ensures !CacheHit(cached) && resolve.Returned? && resolve.value.Some? && r.Finish? ==>
      r == Finish(Rejected(Failure(410, "Tunnel " + resolve.value.value.status.GetOr("None"))))
  {
    if CacheHit(cached) then Target(cached.value)
    else match resolve {
      case RuntimeError(message) => Finish(Raised(message))
      case Returned(None) => Finish(Rejected(SlugNotFound))
      case Returned(Some(record)) =>
        if record.status != Some("active") then Finish(Rejected(Failure(410, "Tunnel " + record.status.GetOr("None"))))
        else Target(record.tunnelId)
    }
  }

  /** Once the slug leads to a tunnel: whether the tunnel is connected here, the
      UTF-8 length of the serialized request, whether sending it failed, and the
      response frame the receive loop delivered before the timeout, if any. */
  function Delivery(connected: bool, payloadBytes: nat, maxBytes: nat, sendFails: bool, arrival: Option<Message>)
    : (r: Reply)
    ensures !connected ==> r == Rejected(NotOnThisPod)
    ensures connected && payloadBytes > maxBytes ==> r == Rejected(PayloadTooLarge)
    ensures connected && payloadBytes <= maxBytes && sendFails ==> r == Rejected(SendFailed)
    ensures r.Answered? <==> connected && payloadBytes <= maxBytes && !sendFails && arrival.Some?
    ensures r.Answered? ==> r.response == BuildResponse(arrival.value)
    ensures connected && payloadBytes <= maxBytes && !sendFails && arrival.None? ==> r == Rejected(TunnelTimeout)
  {
    if !connected then Rejected(NotOnThisPod)
    else if payloadBytes > maxBytes then Rejected(PayloadTooLarge)
    else if sendFails then Rejected(SendFailed)
    else if arrival.None? then Rejected(TunnelTimeout)
    else Answered(BuildResponse(arrival.value))
  }

  /** A route resolved through the Control Plane is cached, and while the cache
      entry lives the same slug routes to the same tunnel whatever the Control
      Plane would say by then, expired or unreachable. */
  lemma CachedRouteIsStable(s: Store, slug: string, cached: Option<string>, resolve: Outcome<Option<SlugRecord>>,
                            later: Outcome<Option<SlugRecord>>, ttl: nat, t: int, t2: int)
    requires ttl > 0 && t <= t2 < t + ttl
    requires !CacheHit(cached) && SlugRoute(cached, resolve).Target?
    requires SlugRoute(cached, resolve).tunnelId != ""
    ensures SlugRoute(Get(SetEx(s, SlugKey(slug), SlugRoute(cached, resolve).tunnelId, ttl, t), SlugKey(slug), t2), later)
      == SlugRoute(cached, resolve)
  {
    SlugCacheRoundTrip(s, slug, SlugRoute(cached, resolve).tunnelId, ttl, t, t2);
  }

  /** The request frame sent to the agent: the path gains its leading slash and
      an empty body is sent as null. */
  function RequestFor(requestId: string, httpMethod: string, path: string, headers: seq<(string, string)>, body: string)
    : ForwardedRequest
  {
    ForwardedRequest(requestId, httpMethod, "/" + path, headers, if body == "" then None else Some(body))
  }

  // ---------------------------------------------------------------- the handler

  /** The sockets of the local tunnels: the one a request is sent on is among them. */
  function SocketsOf(active: map<string, Tunnel>): set<WebSocket> {
    set id | id in active :: active[id].websocket
  }

  /** The slug-cache entry as `get_cached_slug` reads it. */
  ghost function CachedSlug(registry: TunnelRegistry, slug: string): Option<string>
    reads registry, registry.redis
  {
    if registry.redis == null then None else Get(registry.redis.data, SlugKey(slug), registry.redis.clock)
  }

  /** Steps 1 to 3 of `forward_request`: the cache lookup, the Control Plane on a
      miss (at time `now`, with `cpReply` the outcome of its HTTP call), and the
      caching of an active result. */
  method RouteSlug(mgr: TunnelManager, cp: ControlPlaneClient, slug: string, now: int, cpReply: HttpReply<SlugRecord>)
    returns (route: Route)
    requires mgr.Valid()
    modifies mgr.registry.redis, cp
    ensures route == SlugRoute(old(CachedSlug(mgr.registry, slug)),
                               ResolveSlugOutcome(old(cp.mockMode), old(cp.client), slug, now, cpReply))
    ensures CacheHit(old(CachedSlug(mgr.registry, slug))) ==> cp.slugLookups == old(cp.slugLookups)
    ensures !CacheHit(old(CachedSlug(mgr.registry, slug))) ==> cp.slugLookups == old(cp.slugLookups) + [slug]
    ensures cp.mockMode == old(cp.mockMode) && cp.client == old(cp.client)
    ensures cp.validations == old(cp.validations)
    ensures mgr.registry.redis != null ==>
      mgr.registry.redis.data ==
        if !CacheHit(old(CachedSlug(mgr.registry, slug))) && route.Target?
        then SetEx(old(mgr.registry.redis.data), SlugKey(slug), route.tunnelId, mgr.registry.slugCacheTtl,
                   mgr.registry.redis.clock)
        else old(mgr.registry.redis.data)
    ensures mgr.registry.redis != null ==> mgr.registry.redis.clock == old(mgr.registry.redis.clock)
  {
    var cached := mgr.registry.GetCachedSlug(slug);
    if CacheHit(cached) {
      return Target(cached.value);
    }
    var resolved := cp.ResolveSlug(slug, now, cpReply);
    if resolved.RuntimeError? {
      return Finish(Raised(resolved.message));
    }
    if resolved.value.None? {
      return Finish(Rejected(SlugNotFound));
    }
    var record := resolved.value.value;
    if record.status != Some("active") {
      return Finish(Rejected(Failure(410, "Tunnel " + record.status.GetOr("None"))));
    }
    mgr.registry.CacheSlugResolution(slug, record.tunnelId);
    route := Target(record.tunnelId);
  }

  /** Steps 4 onward: the local tunnel lookup, the size limit, the pending
      request, the send and the wait. The request reaches the pending table only
      past the 503 and 413 checks, and whatever happens next, its id is gone from
      the table when the handler returns. */
  method Deliver(mgr: TunnelManager, tunnelId: string, request: ForwardedRequest, payloadBytes: nat, maxBytes: nat,
                 sendFails: bool, arrival: Option<Message>)
    returns (r: Reply)
    requires mgr.Valid()
    modifies mgr, SocketsOf(mgr.activeTunnels)
    ensures mgr.Valid()
    ensures r == Delivery(tunnelId in old(mgr.activeTunnels), payloadBytes, maxBytes, sendFails, arrival)
    ensures mgr.activeTunnels == old(mgr.activeTunnels)
    ensures mgr.pendingRequests ==
      if tunnelId in old(mgr.activeTunnels) && payloadBytes <= maxBytes
      then old(mgr.pendingRequests) - {request.requestId}
      else old(mgr.pendingRequests)
    ensures forall id | id in old(mgr.activeTunnels) ::
      var ws := old(mgr.activeTunnels)[id].websocket;
      && (ws.sends ==
        if tunnelId in old(mgr.activeTunnels) && ws == old(mgr.activeTunnels)[tunnelId].websocket
           && payloadBytes <= maxBytes
        then old(ws.sends) + [RequestFrame(request)]
        else old(ws.sends))
      && ws.closed == old(ws.closed) && ws.accepted == old(ws.accepted)
  {
    var ws := mgr.GetTunnel(tunnelId);
    if ws == null {
      return Rejected(NotOnThisPod);
    }
    if payloadBytes > maxBytes {
      return Rejected(PayloadTooLarge);
    }
    var future := mgr.CreatePendingRequest(request.requestId);
    ws.Send(RequestFrame(request));
    if sendFails {
      mgr.pendingRequests := mgr.pendingRequests - {request.requestId};
      return Rejected(SendFailed);
    }
    // While the handler waits, the receive loop may resolve the request.
    if arrival.Some? {
      mgr.ResolveRequest(request.requestId, arrival.value);
    }
    if future.result.None? {
      // `wait_for` cancels the future when the timeout expires.
      future.Cancel();
      mgr.pendingRequests := mgr.pendingRequests - {request.requestId};
      return Rejected(TunnelTimeout);
    }
    r := Answered(BuildResponse(future.result.value));
  }

  /** `forward_request`: `RouteSlug`, then `Deliver` on the tunnel the slug leads
      to. `requestId` is the generated request id. */
  method ForwardRequest(mgr: TunnelManager, cp: ControlPlaneClient, slug: string, path: string, httpMethod: string,
                        headers: seq<(string, string)>, body: string, now: int, cpReply: HttpReply<SlugRecord>,
                        requestId: string, payloadBytes: nat, sendFails: bool, arrival: Option<Message>, cfg: Settings)
    returns (r: Reply)
    requires mgr.Valid()
    modifies mgr, mgr.registry.redis, cp, SocketsOf(mgr.activeTunnels)
    ensures mgr.Valid()
    ensures var route := SlugRoute(old(CachedSlug(mgr.registry, slug)),
                                   ResolveSlugOutcome(old(cp.mockMode), old(cp.client), slug, now, cpReply));
      && (route.Finish? ==> r == route.reply)
      && (route.Target? ==>
            r == Delivery(route.tunnelId in old(mgr.activeTunnels), payloadBytes, cfg.maxWsPayloadBytes, sendFails, arrival))
      && mgr.pendingRequests ==
           if route.Target? && route.tunnelId in old(mgr.activeTunnels) && payloadBytes <= cfg.maxWsPayloadBytes
           then old(mgr.pendingRequests) - {requestId}
           else old(mgr.pendingRequests)
    ensures mgr.activeTunnels == old(mgr.activeTunnels)
    ensures CacheHit(old(CachedSlug(mgr.registry, slug))) ==> cp.slugLookups == old(cp.slugLookups)
    ensures !CacheHit(old(CachedSlug(mgr.registry, slug))) ==> cp.slugLookups == old(cp.slugLookups) + [slug]
    ensures var route := SlugRoute(old(CachedSlug(mgr.registry, slug)),
                                   ResolveSlugOutcome(old(cp.mockMode), old(cp.client), slug, now, cpReply));
      mgr.registry.redis != null ==>
        mgr.registry.redis.data ==
          if !CacheHit(old(CachedSlug(mgr.registry, slug))) && route.Target?
          then SetEx(old(mgr.registry.redis.data), SlugKey(slug), route.tunnelId, mgr.registry.slugCacheTtl,
                     mgr.registry.redis.clock)
          else old(mgr.registry.redis.data)
    ensures mgr.registry.redis != null ==> mgr.registry.redis.clock == old(mgr.registry.redis.clock)
    ensures var route := SlugRoute(old(CachedSlug(mgr.registry, slug)),
                                   ResolveSlugOutcome(old(cp.mockMode), old(cp.client), slug, now, cpReply));
      forall id | id in old(mgr.activeTunnels) ::
        var ws := old(mgr.activeTunnels)[id].websocket;
        && (ws.sends ==
          if route.Target? && route.tunnelId in old(mgr.activeTunnels)
             && ws == old(mgr.activeTunnels)[route.tunnelId].websocket && payloadBytes <= cfg.maxWsPayloadBytes
          then old(ws.sends) + [RequestFrame(RequestFor(requestId, httpMethod, path, headers, body))]
          else old(ws.sends))
        && ws.closed == old(ws.closed) && ws.accepted == old(ws.accepted)
    ensures cp.mockMode == old(cp.mockMode) && cp.client == old(cp.client)
    ensures cp.validations == old(cp.validations)
  {
    var route := RouteSlug(mgr, cp, slug, now, cpReply);
    if route.Finish? {
      return route.reply;
    }
    r := Deliver(mgr, route.tunnelId, RequestFor(requestId, httpMethod, path, headers, body), payloadBytes,
                 cfg.maxWsPayloadBytes, sendFails, arrival);
  }
}
