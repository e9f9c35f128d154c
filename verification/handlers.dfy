/** The parts of the HTTP handlers that only read: the relay-secret
    decision, the poll response, the authorize redirect, and the input
    checks in front of the two token exchanges. */
module Handlers {
  import opened Sessions
  import Query

  // ---------------------------------------------------------------- auth

  const UnauthorizedText := "Unauthorized: Invalid or missing proxy secret"

  /** The secret a request offers: the `X-Proxy-Secret` header when it is
      non-empty, otherwise the `proxy_secret` query parameter. */
  function SuppliedSecret(header: Option<string>, query: Option<string>): Option<string>
  {
    if Present(header) then header else query
  }

  /** The relay-secret gate in front of the guarded handlers. `None` lets
      the request through; otherwise the request is answered with 401 and
      the handler does not run. */
  function RequireAuth(proxySecret: string, header: Option<string>, query: Option<string>): (denial: Option<Response>)
    ensures proxySecret == "" ==> denial == None
    ensures proxySecret != "" && Present(header) ==>
      (denial == None <==> header.value == proxySecret)
    ensures proxySecret != "" && !Present(header) ==>
      (denial == None <==> query == Some(proxySecret))
    ensures denial.Some? ==> denial.value == TextReply(401, UnauthorizedText)
  {
    if proxySecret == "" then None
    else if SuppliedSecret(header, query) != Some(proxySecret) then Some(TextReply(401, UnauthorizedText))
    else None
  }

  // ---------------------------------------------------------------- poll

  const InvalidSessionJson := JsonReply(404, map["error" := "Invalid session ID"])

  /** `poll_session`: 404 for an unknown id; otherwise a status report whose
      extra key depends on the status. A missing error text reads as
      "Unknown error". */
  function Poll(store: Store, id: SessionId): (r: Response)
    requires id in store && store[id].status == Completed ==> store[id].tokenData.Some?
    ensures id !in store <==> r == InvalidSessionJson
    ensures id in store ==>
      r.JsonReply? && r.code == 200 &&
      "status" in r.fields && r.fields["status"] == StatusName(store[id].status)
    ensures id in store ==> ("token_data" in r.fields <==> store[id].status == Completed)
    ensures id in store ==> ("error" in r.fields <==> store[id].status == Error)
    ensures id in store ==> r.fields.Keys <= {"status", "token_data", "error"}
    ensures id in store && store[id].status == Completed ==>
      r.fields["token_data"] == store[id].tokenData.value
    ensures id in store && store[id].status == Error ==>
      r.fields["error"] == (if store[id].error.Some? then store[id].error.value else "Unknown error")
  {
    if id !in store then InvalidSessionJson
    else
      var s := store[id];
      var report := map["status" := StatusName(s.status)];
      match s.status
      case Completed => JsonReply(200, report["token_data" := s.tokenData.value])
      case Error => JsonReply(200, report["error" := if s.error.Some? then s.error.value else "Unknown error"])
      case Pending => JsonReply(200, report)
  }

  /** An entry that the sweep evicted polls as unknown, like one never issued. */
  lemma PollAfterExpiry(store: Store, id: SessionId, now: int)
    requires StoreWellFormed(store)
    requires id in store && Expired(store[id], now)
    ensures StoreWellFormed(Swept(store, now))
    ensures Poll(Swept(store, now), id) == InvalidSessionJson
  {
    SweptWellFormed(store, now);
  }

  /** A freshly inserted entry polls as pending, and polls of every other
      id answer as before. */
  lemma PollNewSession(store: Store, id: SessionId, now: int, other: SessionId)
    requires StoreWellFormed(store) && id !in store
    ensures StoreWellFormed(store[id := NewSession(now)])
    ensures Poll(store[id := NewSession(now)], id) == JsonReply(200, map["status" := "pending"])
    ensures other != id ==> Poll(store[id := NewSession(now)], other) == Poll(store, other)
  {
  }

  // ---------------------------------------------------------------- login

  const AuthorizeEndpoint := "https://accounts.spotify.com/authorize"
  const Scopes := "user-read-private user-read-email"

  /** How an f-string renders an optional setting: an unset one reads "None". */
  function Rendered(v: Option<string>): string
  {
    if v.Some? then v.value else "None"
  }

  function Param(key: string, val: string): string
  {
    key + "=" + val
  }

  /** The query fields of the authorize redirect, in their fixed order. */
  function AuthorizeParams(config: Config, id: SessionId): seq<string>
  {
    [ Param("response_type", "code"),
      Param("client_id", Rendered(config.clientId)),
      Param("scope", Scopes),
      Param("redirect_uri", Rendered(config.redirectUri)),
      Param("state", id) ]
  }

  /** The authorize URL: endpoint, "?", then the `key=val` fields joined by
      "&", the values inserted verbatim; the session id comes last, as
      `state`. */
  function AuthorizeUrl(config: Config, id: SessionId): (url: string)
    ensures |url| > |AuthorizeEndpoint| + |id| + 7
    ensures url[..|AuthorizeEndpoint| + 1] == AuthorizeEndpoint + "?"
    ensures url[|url| - |id| - 7..] == "&state=" + id
  {
    var ps := AuthorizeParams(config, id);
    var q := Query.Join(ps, '&');
    Query.JoinLast(ps, '&');
    assert q == Query.Join(ps[..4], '&') + "&" + ("state=" + id);
    AuthorizeEndpoint + "?" + q
  }

  /** The query of the authorize URL, after the endpoint and the "?". */
  function AuthorizeQuery(url: string): string
    requires |url| > |AuthorizeEndpoint|
  {
    url[|AuthorizeEndpoint| + 1..]
  }

  /** When no value contains "&", splitting the query on "&" gives back the
      five fields in order, the last being `state=<id>`. */
  lemma AuthorizeQueryFields(config: Config, id: SessionId)
    requires '&' !in Rendered(config.clientId) && '&' !in Rendered(config.redirectUri) && '&' !in id
    ensures |AuthorizeUrl(config, id)| > |AuthorizeEndpoint|
    ensures Query.Split(AuthorizeQuery(AuthorizeUrl(config, id)), '&') == AuthorizeParams(config, id)
    ensures Query.Split(AuthorizeQuery(AuthorizeUrl(config, id)), '&')[4] == "state=" + id
  {
    var ps := AuthorizeParams(config, id);
    assert AuthorizeQuery(AuthorizeUrl(config, id)) == Query.Join(ps, '&');
    forall i | 0 <= i < |ps| ensures '&' !in ps[i] {
      assert '&' !in "response_type=code" && '&' !in "scope=" + Scopes;
    }
    Query.SplitJoin(ps, '&');
  }

  /** Because values are not escaped, a client id holding "&" makes the
      query split into more fields than the five that were meant. */
  lemma AmpersandInClientIdAddsFields(config: Config, id: SessionId)
    requires '&' in Rendered(config.clientId)
    ensures |AuthorizeUrl(config, id)| > |AuthorizeEndpoint|
    ensures |Query.Split(AuthorizeQuery(AuthorizeUrl(config, id)), '&')| > 5
  {
    var ps := AuthorizeParams(config, id);
    var q := Query.Join(ps, '&');
    assert AuthorizeQuery(AuthorizeUrl(config, id)) == q;
    Query.CountPositive(Rendered(config.clientId), '&');
    assert ps[1] == "client_id=" + Rendered(config.clientId);
    Query.CountAppend("client_id=", Rendered(config.clientId), '&');
    Query.JoinCount(ps, '&', 1);
    Query.SplitLength(q, '&');
  }

  /** `login_with_session`: an unknown id is answered 400 and nothing is
      redirected; a known one is redirected to the authorize URL whose
      `state` is the id. */
  function LoginWithSession(store: Store, config: Config, id: SessionId): (r: Response)
    ensures id !in store <==> r == TextReply(400, "Invalid session ID")
    ensures id in store ==> r.RedirectTo? && r.location == AuthorizeUrl(config, id)
  {
    if id !in store then TextReply(400, "Invalid session ID")
    else RedirectTo(AuthorizeUrl(config, id))
  }

  // ---------------------------------------------------------------- callback

  const MissingInputText := "Error: Missing authorization code or session ID"
  const InvalidSessionText := "Error: Invalid session ID"

  /** The form the callback posts to the token endpoint: the process-wide
      client credentials, never per-session ones. */
  function CodeExchangeForm(config: Config, code: string): seq<FormField>
  {
    [ FormField("grant_type", Some("authorization_code")),
      FormField("code", Some(code)),
      FormField("redirect_uri", config.redirectUri),
      FormField("client_id", config.clientId),
      FormField("client_secret", config.clientSecret) ]
  }

  /** The callback's checks before the token exchange: `code` and `state`
      must be present and non-empty, and `state` must name a known entry.
      Whether that entry is still pending is not checked. */
  function CallbackRequest(store: Store, config: Config, code: Option<string>, state: Option<string>): (r: Exchange)
    ensures r.Send? <==> Present(code) && Present(state) && state.value in store
    ensures !Present(code) || !Present(state) ==> r == Rejected(TextReply(400, MissingInputText))
    ensures Present(code) && Present(state) && state.value !in store ==>
      r == Rejected(TextReply(400, InvalidSessionText))
    ensures r.Send? ==> r.form == CodeExchangeForm(config, code.value)
  {
    if !Present(code) || !Present(state) then Rejected(TextReply(400, MissingInputText))
    else if state.value !in store then Rejected(TextReply(400, InvalidSessionText))
    else Send(CodeExchangeForm(config, code.value))
  }

  // ---------------------------------------------------------------- refresh

  /** The input check of `/refresh`: a missing or empty `refresh_token` is
      answered 400 before anything is sent; otherwise the refresh form is
      sent with the process-wide client credentials. */
  function RefreshRequest(config: Config, refreshToken: Option<string>): (r: Exchange)
    ensures r.Rejected? <==> !Present(refreshToken)
    ensures r.Rejected? ==> r.reply == JsonReply(400, map["error" := "Refresh token is required"])
    ensures r.Send? ==>
      FormField("grant_type", Some("refresh_token")) in r.form &&
      FormField("refresh_token", refreshToken) in r.form &&
      FormField("client_id", config.clientId) in r.form
  {
    if !Present(refreshToken) then Rejected(JsonReply(400, map["error" := "Refresh token is required"]))
    else Send([ FormField("grant_type", Some("refresh_token")),
                FormField("refresh_token", refreshToken),
                FormField("client_id", config.clientId),
                FormField("client_secret", config.clientSecret) ])
  }
}
