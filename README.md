# Reverse-tunnel edge gateway: a verified model

The gateway is the pod that local agents connect out to. An agent opens a
WebSocket to `/ws/{tunnel_id}` and presents a tunnel token. The gateway
validates the token with the Control Plane, claims ownership of the tunnel id
in a Redis registry shared by all pods, and keeps the socket in a local
table. An HTTP client calling `/local_tunnel/{slug}/{path}` is routed as
follows:

1. The slug is resolved to a tunnel id, from the Redis slug cache or from the
   Control Plane.
2. The request is sent down the tunnel as a JSON frame and parked on a future.
3. The future is fulfilled when the agent's `response` frame comes back on the
   receive loop.

The model has one Dafny module per component:

| module | file | models |
|---|---|---|
| `Common` | `common.dfy` | `Option`, `Outcome` (a value or a `RuntimeError`), the settings and their defaults |
| `KvStore` | `kv_store.dfy` | the Redis commands the registry issues (GET, SET EX, SET NX EX, DEL, EXPIRE, SADD, SREM, SMEMBERS) on a store with expiry, and the Redis server (`RedisStore`: data and clock) |
| `Registry` | `tunnel_registry.dfy` | `TunnelRegistry` as a class over a `RedisStore`, and the effect of each call on the store as a function |
| `Transport` | `transport.dfy` | the agent socket (accepted flag, close frame, frames sent) and the JSON frames |
| `ControlPlaneApi`, `ControlPlane` | `control_plane_api.dfy`, `control_plane_client.dfy` | `ControlPlaneClient` in mock and real mode; the HTTP reply of the real call is an input |
| `MockAuthority` | `mock_control_plane.dfy` | the mock Control Plane server's two endpoints over its seeded tables |
| `Manager` | `tunnel_manager.dfy` | `TunnelManager` with its tunnel table and pending-request table, `Tunnel`, and the asyncio future as a class |
| `WsTunnel` | `ws_tunnel.dfy` | admission, the receive loop and the heartbeat |
| `HttpTunnel` | `http_tunnel.dfy` | `forward_request`: slug routing, delivery, and response building |
| `EndToEnd` | `end_to_end.dfy` | the gateway's decisions composed with the mock server's rules |

State that the source updates in place is held in classes with `modifies`
frames:

- the registry's handles;
- the Redis data;
- the manager's two dictionaries;
- a tunnel's last pong and heartbeat task;
- a future's result;
- the socket.

Each method is proved against a pure specification function:

- `RegisterEffect`, `RemoveEffect` and `DisconnectEffect` for the registry;
- `Step` and `Run` for the receive loop;
- `JudgeValidation` for admission;
- `SlugRoute` and `Delivery` for `forward_request`.

The properties are proved about those functions.

The two coroutines of one connection are the receive loop and the heartbeat
task. They are modelled as one sequence of events, in the order the event loop
ran them. Each event is either:

- a text frame, given by its UTF-8 length and what `json.loads` made of it; or
- one heartbeat round, given by whether the ping send succeeded and the
  event-loop time of the pong check.

The end of the sequence is the agent disconnecting. Time is an explicit
parameter everywhere: the event-loop clock, the Redis clock, and the moment a
Control Plane call is made.

## Model

| member | source | states |
|---|---|---|
| `KvStore.SetEx` | app/services/tunnel_registry.py:119-123 | SET with EX: the key reads back as the value until `now + ttl` and as absent after; no other key or pod set changes |
| `KvStore.SetNx` | app/services/tunnel_registry.py:65-70 | SET NX EX writes exactly when the key has no live value, and then acts as SET EX; otherwise the store is unchanged |
| `KvStore.Del` | app/services/tunnel_registry.py:91 | DEL: the key reads as absent at every time; every other key and every pod set is unchanged |
| `KvStore.Expire` | app/services/tunnel_registry.py:106 | EXPIRE applies only to a live key; it keeps every key's value and moves only this key's expiry |
| `KvStore.SAdd` | app/services/tunnel_registry.py:74 | SADD adds the id to this pod's set; other sets and all string keys are unchanged |
| `KvStore.SRem` | app/services/tunnel_registry.py:92 | SREM removes the id from this pod's set; other sets and all string keys are unchanged |
| `KvStore.DelSet` | app/services/tunnel_registry.py:48 | DEL of the pod set empties it; other sets and all string keys are unchanged |
| `KvStore.RedisStore.constructor` | app/services/tunnel_registry.py:29-35 | a fresh server holds no keys, at the given clock |
| `Registry.RegisterClaimsFreeKey` | app/services/tunnel_registry.py:54-83 | registration succeeds exactly when no live `tunnel:{id}` key exists; on success this pod owns the id for the TTL and the id is in its set; on failure the store is unchanged |
| `Registry.RemoveReleasesKey` | app/services/tunnel_registry.py:85-94 | after deregistration no pod owns the id at any time, and the id is out of this pod's set |
| `Registry.DisconnectEffect` | app/services/tunnel_registry.py:39-50 | shutdown deletes the ownership key of every id in the pod's set and empties the set; every other key and every other pod's set is unchanged |
| `Registry.DeleteOneMore` | app/services/tunnel_registry.py:46-47 | each DEL queued in the pipeline extends the set of deleted tunnel keys by one id |
| `Registry.OwnershipIsExclusive` | app/services/tunnel_registry.py:63-70 | within the TTL of a successful registration, a second registration of the same id fails for every pod, the same pod included, and leaves the store unchanged |
| `Registry.OwnershipLapsesAfterTtl` | app/services/tunnel_registry.py:65-70 | nothing refreshes the key while the tunnel is connected, so once the TTL has elapsed another pod's registration of the same id succeeds |
| `Registry.BlindRemoveDropsNewOwner` | app/services/tunnel_registry.py:90-93 | deregistration is an unconditional DEL: it also erases a newer owner's key, while the newer owner's pod set keeps the id |
| `Registry.RefreshKeepsOwner` | app/services/tunnel_registry.py:102-106 | `refresh_tunnel_ttl` never changes who owns a tunnel, only when the ownership expires |
| `Registry.SlugCacheRoundTrip` | app/services/tunnel_registry.py:114-134 | a cached slug reads back as the cached tunnel id until the slug-cache TTL has elapsed, and as a miss after |
| `Registry.DisconnectReleasesRegistered` | app/services/tunnel_registry.py:39-50 | every tunnel the pod registered is unowned after the pod disconnects |
| `Registry.TunnelRegistry.constructor` | app/services/tunnel_registry.py:22-24 | no Redis handle and no pod id before `connect` |
| `Registry.TunnelRegistry.Connect` | app/services/tunnel_registry.py:26-37 | sets the pod id and the Redis handle |
| `Registry.TunnelRegistry.Disconnect` | app/services/tunnel_registry.py:39-52 | when connected, the store becomes `DisconnectEffect` of the old store; otherwise nothing changes |
| `Registry.TunnelRegistry.RegisterTunnel` | app/services/tunnel_registry.py:54-83 | raises `RuntimeError("TunnelRegistry not connected")` without a handle or a non-empty pod id; otherwise the result and new store are `RegisterEffect`'s |
| `Registry.TunnelRegistry.RemoveTunnel` | app/services/tunnel_registry.py:85-94 | a silent no-op when not connected; otherwise the new store is `RemoveEffect`'s |
| `Registry.TunnelRegistry.GetTunnelPod` | app/services/tunnel_registry.py:96-100 | None without a handle; otherwise the live owner of `tunnel:{id}` |
| `Registry.TunnelRegistry.RefreshTunnelTtl` | app/services/tunnel_registry.py:102-106 | EXPIRE on the ownership key with the registry TTL when there is a handle |
| `Registry.TunnelRegistry.CacheSlugResolution` | app/services/tunnel_registry.py:114-124 | SET EX of `slug:{slug}` with the slug-cache TTL when there is a handle |
| `Registry.TunnelRegistry.GetCachedSlug` | app/services/tunnel_registry.py:126-134 | None without a handle; otherwise the live value of `slug:{slug}` |
| `Transport.WebSocket.constructor` | app/api/ws_tunnel.py:46 | a socket that is not yet accepted, not closed, with nothing sent |
| `Transport.WebSocket.Accept` | app/api/ws_tunnel.py:101 | accepting changes neither the close frame nor the frames sent |
| `Transport.WebSocket.Close` | app/api/ws_tunnel.py:64 | records the close code and reason; nothing else changes |
| `Transport.WebSocket.Send` | app/api/ws_tunnel.py:146 | appends exactly one frame to those sent |
| `ControlPlane.MockResolveSlug` | app/services/control_plane_client.py:66-76 | mock mode resolves exactly the slugs of `MOCK_SLUGS`, to their tunnel, with status "active" |
| `ControlPlane.MockValidateTunnel` | app/services/control_plane_client.py:128-145 | mock mode validates every tunnel id as valid and active, expiring 24 hours after the call, without reading the token |
| `ControlPlane.RealResolveSlug` | app/services/control_plane_client.py:82-105 | a record only for a 200 with a body; 404, any other status, a timeout or a transport error give None |
| `ControlPlane.RealValidateTunnel` | app/services/control_plane_client.py:151-193 | 401 becomes `valid: false` with status "unauthorized"; 404 becomes `valid: false` with status "not_found"; 200 passes the body through; every other outcome gives None |
| `ControlPlane.ResolveSlugOutcome` | app/services/control_plane_client.py:53-105 | raises exactly in real mode without an HTTP client; a closed client gives None, because the broad `except` swallows the error; a record comes only from the mock table or from a 200 reply |
| `ControlPlane.ValidateOutcome` | app/services/control_plane_client.py:107-193 | raises exactly in real mode without an HTTP client; a closed client gives None; `valid: true` comes only from mock mode or from a 200 reply |
| `ControlPlane.ControlPlaneClient.constructor` | app/services/control_plane_client.py:32-34 | mock mode on, no HTTP client, nothing asked yet |
| `ControlPlane.ControlPlaneClient.InRealMode` | app/services/control_plane_client.py:32-34 | a client whose mock flag is off, with no HTTP client yet |
| `ControlPlane.ControlPlaneClient.Connect` | app/services/control_plane_client.py:36-46 | opens an HTTP client only outside mock mode |
| `ControlPlane.ControlPlaneClient.Disconnect` | app/services/control_plane_client.py:48-51 | closes an existing HTTP client and keeps the reference to it |
| `ControlPlane.ControlPlaneClient.ResolveSlug` | app/services/control_plane_client.py:53-105 | mock table in mock mode; `RuntimeError("ControlPlaneClient not connected")` in real mode without an open client; otherwise the real-mode reading of the reply; records the lookup |
| `ControlPlane.ControlPlaneClient.ValidateTunnel` | app/services/control_plane_client.py:107-193 | as `ResolveSlug`, for validation; records the (tunnel id, token) pair |
| `MockAuthority.ResolveSlug` | mock_control_plane.py:65-79 | 404 for an unknown slug; otherwise 200 with the stored tunnel id, status and expiry, whatever the expiry |
| `MockAuthority.ValidateTunnel` | mock_control_plane.py:82-116 | 404 for an unknown tunnel before the token is compared; 401 for a wrong token; otherwise 200 with `valid` exactly when the effective status is "active", a past expiry overriding the stored status |
| `MockAuthority.SeededTunnels` | mock_control_plane.py:36-57 | within an hour of start, the two active seeded tunnels validate, and the expired and revoked ones do not, each for its own status |
| `Manager.Tunnel.constructor` | app/services/tunnel_manager.py:8-13 | a tunnel starts with its last pong at the time of creation and no heartbeat task |
| `Manager.Future.constructor` | app/services/tunnel_manager.py:63-67 | a new future is neither resolved nor cancelled |
| `Manager.Future.SetResult` | app/services/tunnel_manager.py:71-72 | only a pending future is resolved, and it then holds the message |
| `Manager.Future.Cancel` | app/api/http_tunnel.py:86-92 | cancelling a done future changes nothing; otherwise the future becomes cancelled with no result |
| `Manager.TunnelManager.constructor` | app/services/tunnel_manager.py:26-29 | both tables empty, bound to the process-wide registry |
| `Manager.TunnelManager.RegisterTunnel` | app/services/tunnel_manager.py:31-42 | claims the registry first; the registry's `RuntimeError` passes through; a refused claim raises `ValueError("Tunnel {id} already registered on another pod")` and leaves the local table unchanged; success stores a fresh tunnel under the id |
| `Manager.TunnelManager.RemoveTunnel` | app/services/tunnel_manager.py:44-52 | the id is out of the local table; a running heartbeat task is cancelled; the registry deregisters the id; the pending table is untouched |
| `Manager.TunnelManager.GetTunnel` | app/services/tunnel_manager.py:54-57 | a socket exactly when the id is in the local table, and then that tunnel's socket |
| `Manager.TunnelManager.GetTunnelPod` | app/services/tunnel_manager.py:59-61 | the registry's owner of the id |
| `Manager.TunnelManager.CreatePendingRequest` | app/services/tunnel_manager.py:63-67 | a fresh pending future is stored under the request id, replacing any earlier one |
| `Manager.TunnelManager.ResolveRequest` | app/services/tunnel_manager.py:69-72 | the entry is popped, and its future is resolved with the data only if it was still pending |
| `Manager.TunnelManager.SetPong` | app/services/tunnel_manager.py:74-78 | records `now` as the last pong of a tunnel in the table; nothing else changes |
| `WsTunnel.JudgeValidation` | app/api/ws_tunnel.py:70-101 | admitted exactly when `valid` is true and the status is "active"; no answer or an answer object with no key at all closes with 1011 "Control Plane unavailable"; `valid` not true closes with 1008 "Invalid tunnel credentials: " and the status ("invalid" when absent); a status other than "active" closes with 1008 "Tunnel status: " and the status ("None" when absent) |
| `WsTunnel.UnknownKeysAreInvalidCredentials` | app/api/ws_tunnel.py:70-87 | an answer object with only keys the gateway does not read passes the `not validation_result` test and is refused with 1008 "Invalid tunnel credentials: invalid" |
| `WsTunnel.Dispatch` | app/api/ws_tunnel.py:136-150 | a `response` frame with a non-empty request id resolves that request with the whole frame; `pong` records a pong; `ping` is answered; anything else is ignored |
| `WsTunnel.TextAction` | app/api/ws_tunnel.py:122-150 | an empty frame is skipped; a frame over the size limit closes with 1009; otherwise invalid JSON is dropped, a JSON non-object aborts the loop, and an object is dispatched |
| `WsTunnel.HeartbeatCheck` | app/api/ws_tunnel.py:21-42 | the heartbeat keeps going exactly when the ping was sent, the tunnel is still present and its last pong is within interval plus timeout; it stops without closing exactly when the ping was sent and the tunnel is gone; otherwise (a failed ping or a late pong) it closes and stops |
| `WsTunnel.AnswersAreFinal` | app/services/tunnel_manager.py:69-72 | over any run of the loop, a request is never both waiting and answered, and an answer once given is never replaced |
| `WsTunnel.ResponsesReachTheirRequests` | app/api/ws_tunnel.py:136-140 | a waiting request ends up answered exactly when the loop reads a response frame for it, and then with the first such frame |
| `WsTunnel.StopIsFinal` | app/api/ws_tunnel.py:118-151 | nothing after the frame that ends the loop is read: the state and the ending are those of the prefix up to that frame |
| `WsTunnel.NoPingsAfterHeartbeat` | app/api/ws_tunnel.py:14-42 | once the heartbeat task has returned (or never started) it stays so: frames sent are only appended, and every frame sent afterwards is a pong reply, never a ping |
| `WsTunnel.TooLargeCloses` | app/api/ws_tunnel.py:125-128 | the loop ends because of size exactly when it reaches an oversized frame first, and it then leaves the socket closed with 1009 |
| `WsTunnel.CorrelatedAtStart` | app/services/tunnel_manager.py:63-72 | at the start of a connection no future has been fulfilled by it |
| `WsTunnel.DeliveredIsFirstResponse` | app/api/ws_tunnel.py:136-140 | every future that was pending at the start is left holding exactly the first response frame the loop read for its request id, or nothing |
| `WsTunnel.HeartbeatTick` | app/api/ws_tunnel.py:19-42 | a round sends one ping, reads the tunnel's last pong from the table, and closes the socket with a plain close exactly when `HeartbeatCheck` says so |
| `WsTunnel.HandleResponse` | app/api/ws_tunnel.py:137-140 | `resolve_request` on the frame: the id leaves the pending table, and the answer is recorded only for a request that was waiting |
| `WsTunnel.HandleHeartbeat` | app/api/ws_tunnel.py:14-42 | a heartbeat round on the live objects is `Step` of the session state |
| `WsTunnel.HandleText` | app/api/ws_tunnel.py:120-150 | a text frame on the live objects is `Step` of the session state, and stops the loop exactly when `StopsAt` holds |
| `WsTunnel.HandleEvent` | app/api/ws_tunnel.py:118-151 | one event on the live objects is `Step` of the session state, and keeps request correlation |
| `WsTunnel.ReceiveLoop` | app/api/ws_tunnel.py:118-151 | the loop ends as `Ending` says, leaves the state `Run` computes, never changes the tunnel table, and keeps request correlation |
| `WsTunnel.RunSession` | app/api/ws_tunnel.py:116-155 | starts the heartbeat, runs the loop, then always removes the tunnel: the tunnel leaves the table, a running heartbeat is cancelled, and the registry deregisters it |
| `WsTunnel.Serve` | app/api/ws_tunnel.py:101-155 | served exactly when the registry is connected and grants the claim; a refused claim closes the socket with 1008 and the `ValueError` message; a disconnected registry raises before the socket is touched |
| `WsTunnel.Screen` | app/api/ws_tunnel.py:55-101 | a missing or empty token is accepted then closed with 1008 "Missing X-Tunnel-Token header" before any validation; a `RuntimeError` from validation escapes; a refusal accepts then closes with `JudgeValidation`'s code and reason; admission accepts and leaves the socket open; nothing is sent on the socket; the client's mode, connection and slug-lookup log are unchanged |
| `WsTunnel.WebsocketTunnel` | app/api/ws_tunnel.py:45-155 | the whole handler: a connection is served exactly when the token is present, validation admits it and the claim succeeds; the loop's ending and the socket, pending table, registry and heartbeat are as `Run` and `RemoveEffect` say; when not served, the tables and the store are as before and nothing was sent on the socket; every future pending at the start holds only the answer the loop delivered for its id; the client's mode, connection and slug-lookup log and the store's clock are unchanged |
| `HttpTunnel.FilterHeaders` | app/api/http_tunnel.py:94-97 | a header is kept exactly when it was there and is neither Content-Length nor Transfer-Encoding, compared case-insensitively |
| `HttpTunnel.FilterDistributes` | app/api/http_tunnel.py:96-97 | filtering keeps the order: it distributes over concatenation |
| `HttpTunnel.FilterIdempotent` | app/api/http_tunnel.py:96-97 | filtering a filtered header list changes nothing |
| `HttpTunnel.BuildResponse` | app/api/http_tunnel.py:94-106 | the agent's status (200 by default), body ("" by default) and its headers without the framing headers |
| `HttpTunnel.SlugRoute` | app/api/http_tunnel.py:27-48 | a non-empty cached id is used without asking the Control Plane; otherwise no record is 404 "Slug not found", a non-active status is 410 "Tunnel {status}", a `RuntimeError` escapes, and an active record routes to its tunnel |
| `HttpTunnel.Delivery` | app/api/http_tunnel.py:50-106 | 503 when the tunnel is not on this pod, 413 when the payload is over the limit, 502 when the send fails, 504 when no response arrives in time; answered exactly when none of these happens, with `BuildResponse` of the response |
| `HttpTunnel.CachedRouteIsStable` | app/api/http_tunnel.py:27-48 | a route resolved through the Control Plane and cached is taken from the cache, unchanged, until the slug-cache TTL elapses |
| `HttpTunnel.RouteSlug` | app/api/http_tunnel.py:27-48 | the route is `SlugRoute` of the cache entry and of the Control Plane's answer; the Control Plane is asked exactly on a miss; only an active resolution is written to the cache; the store's clock, the client's mode and connection and its validation log are unchanged |
| `HttpTunnel.Deliver` | app/api/http_tunnel.py:50-106 | the reply is `Delivery`'s; the pending table loses the request id once the request got past the 503 and 413 checks; the request frame is sent only on the tunnel's socket; no socket is accepted or closed |
| `HttpTunnel.ForwardRequest` | app/api/http_tunnel.py:16-106 | the reply is `SlugRoute` followed by `Delivery`; the tunnel table is unchanged and the pending table only loses the request id; the Control Plane is asked exactly on a cache miss; only an active resolution is written to the slug cache; the request frame is sent only on the target tunnel's socket, and only past the 503 and 413 checks; no socket is accepted or closed; the client's mode, connection and validation log are unchanged |
| `EndToEnd.AdmittedIffValidCredentials` | mock_control_plane.py:82-116 | against the mock server, an agent is admitted exactly when its tunnel is known, its token matches, its status is "active" and it has not expired |
| `EndToEnd.RefusalReasons` | app/api/ws_tunnel.py:79-87 | against the mock server, each refusal closes with 1008 and names the reason: "not_found", "unauthorized", "expired", or the stored status |
| `EndToEnd.SeededAdmissions` | mock_control_plane.py:36-57 | within an hour of start, the seeded active tokens are admitted; the expired, revoked and mismatched ones are refused |
| `EndToEnd.MockModeAdmitsAnyTunnel` | app/services/control_plane_client.py:127-145 | in the client's mock mode every tunnel id with a token is admitted |
| `EndToEnd.RoutesIffActiveSlug` | mock_control_plane.py:65-79 | on a cache miss a slug routes exactly when the mock server knows it as "active", and then to its tunnel; otherwise 404 or 410 naming the status |
| `EndToEnd.SeededRoutes` | mock_control_plane.py:16-32 | the seeded slugs route as their names say; "expired-slug" is refused for its stored status, not its expiry time |
| `EndToEnd.MockTablesAgree` | app/services/control_plane_client.py:18-21 | the client's mock slugs are known to the mock server and route to the same tunnels in both modes |

## Left out

- JSON encoding and decoding, and UTF-8 lengths. A text frame is modelled as its byte length and its parse. For a request frame, the size of the encoded payload is an input (`payloadBytes`).
- Concurrency. Locks, task scheduling and cancellation points are not modelled. The heartbeat task and the receive loop appear as one interleaved sequence of events, and the manager's `asyncio.Lock` is not needed because each call is atomic in the model.
- A 200 reply whose body is valid JSON but not an object (a list, a number, `null`) is not told apart from one that is not JSON. Both are `Response(200, None)`. The client's `.get` on such a body raises inside its `try` (app/services/control_plane_client.py:181 for validation, :97 for resolution), and the broad `except` returns None. The handlers then close with 1011 or answer 404, as the model says.
- `ForwardRequest`: a request body that is not valid UTF-8 is not modelled. `body.decode()` at app/api/http_tunnel.py:70 raises `UnicodeDecodeError` there, which surfaces as an unhandled 500 after the 503 check and before the 413 check. The model takes the body as a string, so it cannot express such a body.
- After the heartbeat has closed the socket, the model goes on reading frames. If an oversized frame follows, the model records the 1009 close in place of the heartbeat's 1000 close and ends with `ClosedTooLarge`. In the source, that second close at app/api/ws_tunnel.py:127 has no `try`, so the framework's refusal to send after a close raises out of the loop. The tunnel is removed in both cases, but the close code and the way the loop ends differ.
- The heartbeat's `websocket.close()` is modelled once. A second close attempt after the receive loop has closed the socket is not modelled, because the source swallows any exception it raises.
- Two connections with the same tunnel id on one pod can both run once the registry key has lapsed. The model records the local table entry being overwritten but does not follow both sessions at once.
- Redis networking, connection errors and the ping in `connect` are not modelled. A pipeline is modelled as its queued commands applied in order, with no partial failure.
- `HttpTunnel.FilterHeaders`: lower-casing is ASCII only, where Python's `str.lower` covers all of Unicode.
- Request ids in response frames are modelled as strings. A non-string `request_id` (a number, a list) is not modelled.
- `status` and `expires_at` in a validation answer, and `headers`, `status` and `body` in a response frame, are modelled as `Option`. `valid` is modelled as the truthiness of its value, which is all the handler tests, and keys the gateway does not read as one flag. An absent key and a JSON `null` are not told apart, although `dict.get` with a default treats them differently.
- `uuid.uuid4()` for the request id is a parameter of `ForwardRequest`.
- The `asyncio.wait_for` timeout is an input (`arrival`): either the response that arrived in time, or none.
- `refresh_tunnel_ttl` is modelled, but nothing in the core calls it. `OwnershipLapsesAfterTtl` states the consequence.
- Logging is left out.
- `SlugRecord` assumes that a 200 reply from the Control Plane carries `tunnel_id`. A missing `tunnel_id` (so that `None` would be cached) is not modelled.
- Application start-up, health checks and configuration loading (app/main.py, app/core/config.py) are not part of this model. Settings are parameters, and `DefaultSettings` holds the configured defaults.
- The clocks (`datetime.utcnow()`, the event-loop time, the Redis clock) are explicit parameters. Time passing on the Redis server is not an operation of the gateway, so no member advances `RedisStore.clock`; lemmas about expiry take the later time as a parameter.
- Behaviours of the code a reader may not expect, which the model keeps as written:
  - deregistration is a blind DEL, so it can erase a newer owner's key (`BlindRemoveDropsNewOwner`);
  - pending requests are not failed when their tunnel closes; they wait for the HTTP timeout;
  - a slug-cache hit skips the Control Plane's status check;
  - frames of unknown type are ignored.
