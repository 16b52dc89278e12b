/** The gateway's admission and routing decisions composed with the mock
    Control Plane's rules (mock_control_plane.py): what an agent or an HTTP
    client meets end to end, in real mode against the mock server and in the
    client's own mock mode. */
module EndToEnd {
  import opened Common
  import opened ControlPlaneApi
  import opened ControlPlane
  import MockAuthority
  import opened WsTunnel
  import opened HttpTunnel

  /** The admission decision for a real-mode client whose validation call reached
      the mock server holding `tokens`. */
  function AdmissionAgainst(tokens: map<string, MockAuthority.TokenInfo>, tunnelId: string, token: string, now: int)
    : Admission
  {
    JudgeValidation(RealValidateTunnel(tunnelId, MockAuthority.ValidateTunnel(tokens, tunnelId, token, now)))
  }

  /** An agent is admitted exactly when its tunnel is known, its token matches,
      the stored status is "active" and the tunnel has not expired. */
  lemma AdmittedIffValidCredentials(tokens: map<string, MockAuthority.TokenInfo>, tunnelId: string, token: string, now: int)
    ensures AdmissionAgainst(tokens, tunnelId, token, now) == Admit <==>
      && tunnelId in tokens && tokens[tunnelId].token == token
      && tokens[tunnelId].status == "active" && now <= tokens[tunnelId].expiresAt
  {
    var reply := MockAuthority.ValidateTunnel(tokens, tunnelId, token, now);
    if tunnelId in tokens && tokens[tunnelId].token == token {
      assert reply.Response? && reply.code == 200 && reply.body.Some?;
      assert RealValidateTunnel(tunnelId, reply) == reply.body;
    }
  }

  /** Every refusal closes with policy violation 1008 and a reason naming what the
      server said: unknown tunnel, wrong token, or the effective status. */
  lemma RefusalReasons(tokens: map<string, MockAuthority.TokenInfo>, tunnelId: string, token: string, now: int)
    ensures tunnelId !in tokens ==>
      AdmissionAgainst(tokens, tunnelId, token, now) == Refuse(PolicyViolation, "Invalid tunnel credentials: not_found")
    ensures tunnelId in tokens && tokens[tunnelId].token != token ==>
      AdmissionAgainst(tokens, tunnelId, token, now) == Refuse(PolicyViolation, "Invalid tunnel credentials: unauthorized")
    ensures tunnelId in tokens && tokens[tunnelId].token == token && tokens[tunnelId].expiresAt < now ==>
      AdmissionAgainst(tokens, tunnelId, token, now) == Refuse(PolicyViolation, "Invalid tunnel credentials: expired")
    ensures tunnelId in tokens && tokens[tunnelId].token == token && now <= tokens[tunnelId].expiresAt
            && tokens[tunnelId].status != "active" ==>
      AdmissionAgainst(tokens, tunnelId, token, now)
        == Refuse(PolicyViolation, "Invalid tunnel credentials: " + tokens[tunnelId].status)
  {
    var reply := MockAuthority.ValidateTunnel(tokens, tunnelId, token, now);
    if tunnelId in tokens && tokens[tunnelId].token == token {
      assert RealValidateTunnel(tunnelId, reply) == reply.body;
    }
  }

  /** With the seeded tables, within the first hour after the server starts, the
      seeded tokens fare as their names say. */
  lemma SeededAdmissions(startedAt: int, now: int)
    requires startedAt <= now < startedAt + MockAuthority.Hour
    ensures var tokens := MockAuthority.TunnelTokens(startedAt);
      && AdmissionAgainst(tokens, "tunnel_test123", "valid_token_123", now) == Admit
      && AdmissionAgainst(tokens, "tunnel_abc456", "valid_token_456", now) == Admit
      && AdmissionAgainst(tokens, "tunnel_expired", "expired_token", now).Refuse?
      && AdmissionAgainst(tokens, "tunnel_revoked", "revoked_token", now).Refuse?
      && AdmissionAgainst(tokens, "tunnel_test123", "valid_token_456", now).Refuse?
  {
    var tokens := MockAuthority.TunnelTokens(startedAt);
    AdmittedIffValidCredentials(tokens, "tunnel_test123", "valid_token_123", now);
    AdmittedIffValidCredentials(tokens, "tunnel_abc456", "valid_token_456", now);
    AdmittedIffValidCredentials(tokens, "tunnel_expired", "expired_token", now);
    AdmittedIffValidCredentials(tokens, "tunnel_revoked", "revoked_token", now);
    AdmittedIffValidCredentials(tokens, "tunnel_test123", "valid_token_456", now);
  }

  /** In the client's mock mode the token is never checked: every tunnel id with
      a non-empty token is admitted. */
  lemma MockModeAdmitsAnyTunnel(tunnelId: string, now: int)
    ensures JudgeValidation(Some(MockValidateTunnel(tunnelId, now))) == Admit
  {
  }

  /** A cache miss resolved in real mode against the mock server holding `db`. */
  function RouteAgainst(db: map<string, MockAuthority.SlugInfo>, slug: string): Route {
    SlugRoute(None, Returned(RealResolveSlug(MockAuthority.ResolveSlug(db, slug))))
  }

  /** On a cache miss a slug routes exactly when the server knows it with status
      "active", and then to the tunnel it names; an unknown slug is 404 and a
      known one in any other status is 410 naming that status. */
  lemma RoutesIffActiveSlug(db: map<string, MockAuthority.SlugInfo>, slug: string)
    ensures RouteAgainst(db, slug).Target? <==> slug in db && db[slug].status == "active"
    ensures RouteAgainst(db, slug).Target? ==> RouteAgainst(db, slug).tunnelId == db[slug].tunnelId
    ensures slug !in db ==> RouteAgainst(db, slug) == Finish(Rejected(SlugNotFound))
    ensures slug in db && db[slug].status != "active" ==>
      RouteAgainst(db, slug) == Finish(Rejected(Failure(410, "Tunnel " + db[slug].status)))
  {
    var reply := MockAuthority.ResolveSlug(db, slug);
    if slug in db {
      assert RealResolveSlug(reply) == reply.body;
    }
  }

  /** The slug resolver does not look at expiry: the seeded "expired-slug" is
      refused for its stored status, and "test-slug" still routes after its
      expiry time has passed. */
  lemma SeededRoutes(startedAt: int)
    ensures var db := MockAuthority.SlugDatabase(startedAt);
      && RouteAgainst(db, "my-slug") == Target("tunnel_test123")
      && RouteAgainst(db, "test-slug") == Target("tunnel_abc456")
      && RouteAgainst(db, "expired-slug") == Finish(Rejected(Failure(410, "Tunnel expired")))
      && RouteAgainst(db, "no-such-slug") == Finish(Rejected(SlugNotFound))
  {
    var db := MockAuthority.SlugDatabase(startedAt);
    RoutesIffActiveSlug(db, "my-slug");
    RoutesIffActiveSlug(db, "test-slug");
    RoutesIffActiveSlug(db, "expired-slug");
    assert db["expired-slug"].status == "expired" && "Tunnel " + "expired" == "Tunnel expired";
    RoutesIffActiveSlug(db, "no-such-slug");
  }

  /** The client's mock tables agree with the mock server's seeded slugs: in
      either mode the two known slugs route to the same tunnels. */
  lemma MockTablesAgree(startedAt: int, now: int)
    ensures forall slug | slug in MockSlugs ::
      && slug in MockAuthority.SlugDatabase(startedAt)
      && SlugRoute(None, Returned(MockResolveSlug(slug, now))) == RouteAgainst(MockAuthority.SlugDatabase(startedAt), slug)
  {
    var db := MockAuthority.SlugDatabase(startedAt);
    RoutesIffActiveSlug(db, "my-slug");
    RoutesIffActiveSlug(db, "test-slug");
    assert MockSlugs.Keys == {"my-slug", "test-slug"};
  }
}
