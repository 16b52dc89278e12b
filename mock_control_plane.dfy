/** The mock Control Plane server (mock_control_plane.py): its two endpoints as
    functions of its tables and of the time of the request. */
module MockAuthority {
  import opened Common
  import opened ControlPlaneApi

  datatype SlugInfo = SlugInfo(tunnelId: string, expiresAt: int, status: string)

  datatype TokenInfo = TokenInfo(token: string, expiresAt: int, status: string)

  const Hour := 3600

  /** SLUG_DATABASE, built when the server starts at `startedAt`. */
  function SlugDatabase(startedAt: int): map<string, SlugInfo> {
    map[
      "my-slug" := SlugInfo("tunnel_test123", startedAt + 24 * Hour, "active"),
      "test-slug" := SlugInfo("tunnel_abc456", startedAt + Hour, "active"),
      "expired-slug" := SlugInfo("tunnel_expired", startedAt - Hour, "expired")]
  }

  /** TUNNEL_TOKENS, built when the server starts at `startedAt`. */
  function TunnelTokens(startedAt: int): map<string, TokenInfo> {
    map[
      "tunnel_test123" := TokenInfo("valid_token_123", startedAt + 24 * Hour, "active"),
      "tunnel_abc456" := TokenInfo("valid_token_456", startedAt + Hour, "active"),
      "tunnel_expired" := TokenInfo("expired_token", startedAt - Hour, "expired"),
      "tunnel_revoked" := TokenInfo("revoked_token", startedAt + Hour, "revoked")]
  }

  /** `GET /api/tunnels/resolve/{slug}`: the stored record, or 404. */
  function ResolveSlug(db: map<string, SlugInfo>, slug: string): (r: HttpReply<SlugRecord>)
    ensures slug !in db ==> r == Response(404, None)
    ensures slug in db ==> r == Response(200, Some(SlugRecord(db[slug].tunnelId, Some(db[slug].status), Some(db[slug].expiresAt))))
  {
    if slug !in db then Response(404, None)
    else
      var info := db[slug];
      Response(200, Some(SlugRecord(info.tunnelId, Some(info.status), Some(info.expiresAt))))
  }

  /** The status the authority reports: a past expiry overrides the stored status. */
  function EffectiveStatus(info: TokenInfo, now: int): string {
    if info.expiresAt < now then "expired" else info.status
  }

  /** `POST /api/tunnels/validate`: unknown tunnel 404 before the token is compared,
      wrong token 401, otherwise 200 with `valid` exactly when the effective status
      is "active". */
  function ValidateTunnel(tokens: map<string, TokenInfo>, tunnelId: string, token: string, now: int)
    : (r: HttpReply<Validation>)
    ensures tunnelId !in tokens ==> r == Response(404, None)
    ensures tunnelId in tokens && tokens[tunnelId].token != token ==> r == Response(401, None)
    ensures tunnelId in tokens && tokens[tunnelId].token == token ==>
      r.Response? && r.code == 200 && r.body.Some?
    ensures r.Response? && r.code == 200 ==>
      tunnelId in tokens && r.body.Some? &&
      (r.body.value.valid == Some(true) <==> tokens[tunnelId].status == "active" && now <= tokens[tunnelId].expiresAt) &&
      (r.body.value.valid == Some(true) <==> r.body.value.status == Some("active")) &&
      (tokens[tunnelId].expiresAt < now ==> r.body.value.status == Some("expired")) &&
      r.body.value.tunnelId == Some(tunnelId) && r.body.value.expiresAt == Some(tokens[tunnelId].expiresAt)
  {
    if tunnelId !in tokens then Response(404, None)
    else if tokens[tunnelId].token != token then Response(401, None)
    else
      var info := tokens[tunnelId];
      var status := EffectiveStatus(info, now);
      Response(200, Some(Validation(Some(status == "active"), Some(tunnelId), Some(status), Some(info.expiresAt), false)))
  }

  /** Within the first hour after start, the seeded tunnels validate as their names say. */
  lemma SeededTunnels(startedAt: int, now: int)
    requires startedAt <= now < startedAt + Hour
    ensures var tokens := TunnelTokens(startedAt);
      && ValidateTunnel(tokens, "tunnel_test123", "valid_token_123", now).body.value.valid == Some(true)
      && ValidateTunnel(tokens, "tunnel_abc456", "valid_token_456", now).body.value.valid == Some(true)
      && ValidateTunnel(tokens, "tunnel_expired", "expired_token", now).body.value.status == Some("expired")
      && ValidateTunnel(tokens, "tunnel_revoked", "revoked_token", now).body.value.status == Some("revoked")
      && ValidateTunnel(tokens, "tunnel_test123", "valid_token_456", now) == Response(401, None)
      && ValidateTunnel(tokens, "tunnel_unknown", "valid_token_123", now) == Response(404, None)
  {
    var tokens := TunnelTokens(startedAt);
    assert tokens["tunnel_test123"].token == "valid_token_123";
    assert tokens["tunnel_abc456"].token == "valid_token_456";
    assert tokens["tunnel_expired"].token == "expired_token";
    assert tokens["tunnel_revoked"].token == "revoked_token";
    assert "tunnel_unknown" !in tokens;
  }
}
