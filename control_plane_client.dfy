/** The Control Plane client (app/services/control_plane_client.py): table lookups
    in mock mode, the mapping of an HTTP outcome to a result in real mode. */
module ControlPlane {
  import opened Common
  import opened ControlPlaneApi

  /** MOCK_SLUGS */
  const MockSlugs: map<string, string> := map["my-slug" := "tunnel_test123", "test-slug" := "tunnel_abc456"]

  datatype MockTunnel = MockTunnel(valid: bool, status: string)

  /** MOCK_TUNNELS */
  const MockTunnels: map<string, MockTunnel> :=
    map["tunnel_test123" := MockTunnel(true, "active"), "tunnel_abc456" := MockTunnel(true, "active")]

  /** Mock results expire 24 hours after the call. */
  const MockLifetime := 24 * 3600

  /** Mock `resolve_slug`: known slugs resolve to their table entry, always active. */
  function MockResolveSlug(slug: string, now: int): (r: Option<SlugRecord>)
    ensures r.Some? <==> slug in MockSlugs
    ensures r.Some? ==> r.value.tunnelId == MockSlugs[slug] && r.value.status == Some("active")
  {
    if slug in MockSlugs && MockSlugs[slug] != "" then
      Some(SlugRecord(MockSlugs[slug], Some("active"), Some(now + MockLifetime)))
    else
      None
  }

  /** Mock `validate_tunnel`: the token is never read, and every tunnel id, listed or
      not, comes back valid and active. */
  function MockValidateTunnel(tunnelId: string, now: int): (r: Validation)
    ensures r.valid == Some(true) && r.status == Some("active")
    ensures r.tunnelId == Some(tunnelId) && r.expiresAt == Some(now + MockLifetime)
  {
    if tunnelId in MockTunnels then
      Validation(Some(MockTunnels[tunnelId].valid), Some(tunnelId), Some(MockTunnels[tunnelId].status), Some(now + MockLifetime), false)
    else
      Validation(Some(true), Some(tunnelId), Some("active"), Some(now + MockLifetime), false)
  }

  /** Real-mode `resolve_slug` over the outcome of its GET: only a 200 with a JSON
      body yields a record; 404, any other status, a timeout or any error yield None. */
  function RealResolveSlug(reply: HttpReply<SlugRecord>): (r: Option<SlugRecord>)
    ensures r.Some? <==> reply.Response? && reply.code == 200 && reply.body.Some?
    ensures r.Some? ==> r.value == reply.body.value
  {
    match reply
    case Response(code, body) =>
      if code == 404 then None
      else if code != 200 then None
      else body
    case TimedOut => None
    case Failed => None
  }

  /** Real-mode `validate_tunnel` over the outcome of its POST. */
  function RealValidateTunnel(tunnelId: string, reply: HttpReply<Validation>): (r: Option<Validation>)
    ensures reply.Response? && reply.code == 401 ==> r == Some(Validation(Some(false), Some(tunnelId), Some("unauthorized"), None, false))
    ensures reply.Response? && reply.code == 404 ==> r == Some(Validation(Some(false), Some(tunnelId), Some("not_found"), None, false))
    ensures reply.Response? && reply.code == 200 ==> r == reply.body
    ensures r.None? <==> !(reply.Response? && (reply.code == 401 || reply.code == 404 || (reply.code == 200 && reply.body.Some?)))
  {
    match reply
    case Response(code, body) =>
      if code == 401 then Some(Validation(Some(false), Some(tunnelId), Some("unauthorized"), None, false))
      else if code == 404 then Some(Validation(Some(false), Some(tunnelId), Some("not_found"), None, false))
      else if code != 200 then None
      else body
    case TimedOut => None
    case Failed => None
  }

  /** `_client`: none yet, open, or closed by `disconnect` (which does not reset it). */
  datatype ClientState = NoClient | Open | Closed

  const NotConnected := "ControlPlaneClient not connected"

  /** What `resolve_slug` returns or raises, given the client's state and the
      outcome the HTTP call would have. */
  function ResolveSlugOutcome(mockMode: bool, client: ClientState, slug: string, now: int, reply: HttpReply<SlugRecord>)
    : (r: Outcome<Option<SlugRecord>>)
    ensures r.RuntimeError? <==> !mockMode && client.NoClient?
    ensures !mockMode && client.Closed? ==> r == Returned(None)
    ensures r.Returned? && r.value.Some? ==>
      (mockMode && slug in MockSlugs) || (client.Open? && reply.Response? && reply.code == 200)
  {
    if mockMode then Returned(MockResolveSlug(slug, now))
    else if client == NoClient then RuntimeError(NotConnected)
    // A closed httpx client raises on use; the broad except turns that into None.
    else if client == Closed then Returned(None)
    else Returned(RealResolveSlug(reply))
  }

  /** What `validate_tunnel` returns or raises. */
  function ValidateOutcome(mockMode: bool, client: ClientState, tunnelId: string, now: int, reply: HttpReply<Validation>)
    : (r: Outcome<Option<Validation>>)
    ensures r.RuntimeError? <==> !mockMode && client.NoClient?
    ensures !mockMode && client.Closed? ==> r == Returned(None)
    ensures r.Returned? && r.value.Some? && r.value.value.valid == Some(true) ==>
      mockMode || (client.Open? && reply.Response? && reply.code == 200)
  {
    if mockMode then Returned(Some(MockValidateTunnel(tunnelId, now)))
    else if client == NoClient then RuntimeError(NotConnected)
    else if client == Closed then Returned(None)
    else Returned(RealValidateTunnel(tunnelId, reply))
  }

  class ControlPlaneClient {
    var mockMode: bool
    var client: ClientState
    /** Every slug the gateway asked about, and every (tunnel id, token) it had validated, in order. */
    ghost var slugLookups: seq<string>
    ghost var validations: seq<(string, string)>

    /** The source's constructor: mock mode on, no HTTP client. */
    constructor ()
      ensures mockMode && client == NoClient
      ensures slugLookups == [] && validations == []
    {
      mockMode := true;
      client := NoClient;
      slugLookups := [];
      validations := [];
    }

    /** A client whose `_mock_mode` has been switched off after construction. */
    constructor InRealMode()
      ensures !mockMode && client == NoClient
      ensures slugLookups == [] && validations == []
    {
      mockMode := false;
      client := NoClient;
      slugLookups := [];
      validations := [];
    }

    /** `connect`: creates an HTTP client only outside mock mode. */
    method Connect()
      modifies this
      ensures mockMode == old(mockMode)
      ensures client == (if mockMode then old(client) else Open)
      ensures slugLookups == old(slugLookups) && validations == old(validations)
    {
      if mockMode {
        return;
      }
      client := Open;
    }

    /** `disconnect`: closes the HTTP client but keeps the reference to it. */
    method Disconnect()
      modifies this
      ensures mockMode == old(mockMode)
      ensures client == (if old(client) == NoClient then NoClient else Closed)
      ensures slugLookups == old(slugLookups) && validations == old(validations)
    {
      if client != NoClient {
        client := Closed;
      }
    }

    method ResolveSlug(slug: string, now: int, reply: HttpReply<SlugRecord>) returns (r: Outcome<Option<SlugRecord>>)
      modifies this
      ensures r == ResolveSlugOutcome(mockMode, client, slug, now, reply)
      ensures mockMode == old(mockMode) && client == old(client)
      ensures slugLookups == old(slugLookups) + [slug] && validations == old(validations)
    {
      slugLookups := slugLookups + [slug];
      if mockMode {
        return Returned(MockResolveSlug(slug, now));
      }
      if client == NoClient {
        return RuntimeError(NotConnected);
      }
      if client == Closed {
        return Returned(None);
      }
      r := Returned(RealResolveSlug(reply));
    }

    method ValidateTunnel(tunnelId: string, token: string, now: int, reply: HttpReply<Validation>)
      returns (r: Outcome<Option<Validation>>)
      modifies this
      ensures r == ValidateOutcome(mockMode, client, tunnelId, now, reply)
      ensures mockMode == old(mockMode) && client == old(client)
      ensures validations == old(validations) + [(tunnelId, token)] && slugLookups == old(slugLookups)
    {
      validations := validations + [(tunnelId, token)];
      if mockMode {
        return Returned(Some(MockValidateTunnel(tunnelId, now)));
      }
      if client == NoClient {
        return RuntimeError(NotConnected);
      }
      if client == Closed {
        return Returned(None);
      }
      r := Returned(RealValidateTunnel(tunnelId, reply));
    }
  }
}
