/** The relay's in-memory session table and the handlers that change it:
    `create_session`, the legacy `login`, `callback` and the
    before-request sweep `cleanup_sessions`. */
module Relay {
  import opened Sessions
  import Handlers

  /** The ids of the expired entries, as the sweep's first loop collects
      them: every expired id exactly once, and nothing else. The order in
      which ids are visited is immaterial to the result. */
  method CollectExpired(store: Store, now: int) returns (expired: seq<SessionId>)
    ensures forall id :: id in expired <==> id in store && Expired(store[id], now)
    ensures forall i, j :: 0 <= i < j < |expired| ==> expired[i] != expired[j]
  {
    expired := [];
    var unvisited := store.Keys;
    while unvisited != {}
      invariant unvisited <= store.Keys
      invariant forall id :: id in expired <==> id in store && id !in unvisited && Expired(store[id], now)
      invariant forall i, j :: 0 <= i < j < |expired| ==> expired[i] != expired[j]
      decreases unvisited
    {
      var id :| id in unvisited;
      if Expired(store[id], now) {
        expired := expired + [id];
      }
      unvisited := unvisited - {id};
    }
  }

  class SessionStore {
    var sessions: Store

    /** Every entry the handlers have written is well formed. */
    ghost predicate Valid()
      reads this
    {
      StoreWellFormed(sessions)
    }

    constructor ()
      ensures Valid() && sessions == map[]
    {
      sessions := map[];
    }

    /** `create_session`: inserts a pending entry under the fresh id and
        answers with that id; no other entry changes. */
    method CreateSession(id: SessionId, now: int) returns (resp: Response)
      requires Valid()
      requires id !in sessions
      modifies this
      ensures Valid()
      ensures sessions == old(sessions)[id := NewSession(now)]
      ensures |sessions| == |old(sessions)| + 1
      ensures resp == JsonReply(200, map["session_id" := id])
    {
      sessions := sessions[id := NewSession(now)];
      resp := JsonReply(200, map["session_id" := id]);
    }

    /** The legacy `login`: the same insertion, then a redirect to the
        session's own login path. */
    method Login(id: SessionId, now: int) returns (resp: Response)
      requires Valid()
      requires id !in sessions
      modifies this
      ensures Valid()
      ensures sessions == old(sessions)[id := NewSession(now)]
      ensures |sessions| == |old(sessions)| + 1
      ensures resp == RedirectTo("/login/" + id)
    {
      sessions := sessions[id := NewSession(now)];
      resp := RedirectTo("/login/" + id);
    }

    /** `callback`: after its input checks it sends the code exchange and
        writes the provider's answer into the entry named by `state`,
        whatever that entry's status was before. `sent` is the form that
        went to the provider, `None` when nothing was sent; `reply` is the
        provider's answer to it. */
    method Callback(config: Config, code: Option<string>, state: Option<string>, reply: ProviderReply, now: int)
      returns (resp: Response, sent: Option<seq<FormField>>)
      requires Valid()
      modifies this
      ensures Valid()
      ensures Handlers.CallbackRequest(old(sessions), config, code, state).Rejected? ==>
        resp == Handlers.CallbackRequest(old(sessions), config, code, state).reply &&
        sent == None && sessions == old(sessions)
      ensures Handlers.CallbackRequest(old(sessions), config, code, state).Send? ==>
        sent == Some(Handlers.CallbackRequest(old(sessions), config, code, state).form) &&
        state.value in old(sessions) &&
        sessions == old(sessions)[state.value := Settle(old(sessions)[state.value], reply, now)]
      ensures Handlers.CallbackRequest(old(sessions), config, code, state).Send? && reply.statusCode != 200 ==>
        resp == TextReply(500, "Error getting access token: " + reply.text)
      ensures Handlers.CallbackRequest(old(sessions), config, code, state).Send? && reply.statusCode == 200 ==>
        resp == SuccessPage(state.value)
    {
      var check := Handlers.CallbackRequest(sessions, config, code, state);
      if check.Rejected? {
        return check.reply, None;
      }
      sent := Some(check.form);
      var id := state.value;
      if reply.statusCode != 200 {
        sessions := sessions[id := sessions[id].(status := Error)];
        sessions := sessions[id := sessions[id].(error := Some(reply.text))];
        resp := TextReply(500, "Error getting access token: " + reply.text);
        return;
      }
      var tokenData := reply.text;
      sessions := sessions[id := sessions[id].(status := Completed)];
      sessions := sessions[id := sessions[id].(tokenData := Some(tokenData))];
      sessions := sessions[id := sessions[id].(completedAt := Some(now))];
      resp := SuccessPage(id);
    }

    /** `cleanup_sessions`: collects the expired ids, then removes each of
        them. Exactly the entries older than the TTL go, whatever their
        status; the others stay as they were. */
    method CleanupSessions(now: int)
      requires Valid()
      modifies this
      ensures Valid()
      ensures sessions == Swept(old(sessions), now)
      ensures forall id :: id in sessions <==> id in old(sessions) && now - old(sessions)[id].created <= SessionTtl
      ensures forall id :: id in sessions ==> sessions[id] == old(sessions)[id]
    {
      var expired := CollectExpired(sessions, now);
      var i := 0;
      while i < |expired|
        invariant 0 <= i <= |expired|
        invariant sessions == map id | id in old(sessions) && id !in expired[..i] :: old(sessions)[id]
      {
        sessions := sessions - {expired[i]};
        assert expired[..i + 1] == expired[..i] + [expired[i]];
        i := i + 1;
      }
      assert expired[..i] == expired;
    }

    /** `poll_session` as a request runs it: the before-request sweep at
        `now`, then the poll, so an entry older than the TTL polls as
        unknown. */
    method HandlePoll(id: SessionId, now: int) returns (resp: Response)
      requires Valid()
      modifies this
      ensures Valid()
      ensures sessions == Swept(old(sessions), now)
      ensures resp == Handlers.Poll(sessions, id)
      ensures id in old(sessions) && Expired(old(sessions)[id], now) ==> resp == Handlers.InvalidSessionJson
    {
      CleanupSessions(now);
      resp := Handlers.Poll(sessions, id);
    }

    /** `login_with_session` after the before-request sweep: an entry older
        than the TTL is answered like an unknown id. */
    method HandleLoginWithSession(config: Config, id: SessionId, now: int) returns (resp: Response)
      requires Valid()
      modifies this
      ensures Valid()
      ensures sessions == Swept(old(sessions), now)
      ensures resp == Handlers.LoginWithSession(sessions, config, id)
      ensures id in old(sessions) && Expired(old(sessions)[id], now) ==> resp == TextReply(400, "Invalid session ID")
    {
      CleanupSessions(now);
      resp := Handlers.LoginWithSession(sessions, config, id);
    }

    /** `callback` after the before-request sweep: a `state` whose entry is
        older than the TTL is rejected as unknown, nothing is sent, and the
        table is only swept. */
    method HandleCallback(config: Config, code: Option<string>, state: Option<string>, reply: ProviderReply, now: int)
      returns (resp: Response, sent: Option<seq<FormField>>)
      requires Valid()
      modifies this
      ensures Valid()
      ensures Present(code) && Present(state) && state.value in old(sessions) && Expired(old(sessions)[state.value], now) ==>
        resp == TextReply(400, Handlers.InvalidSessionText) && sent == None &&
        sessions == Swept(old(sessions), now)
      ensures Handlers.CallbackRequest(Swept(old(sessions), now), config, code, state).Rejected? ==>
        resp == Handlers.CallbackRequest(Swept(old(sessions), now), config, code, state).reply &&
        sent == None && sessions == Swept(old(sessions), now)
      ensures Handlers.CallbackRequest(Swept(old(sessions), now), config, code, state).Send? ==>
        sent == Some(Handlers.CallbackRequest(Swept(old(sessions), now), config, code, state).form) &&
        state.value in Swept(old(sessions), now) &&
        sessions == Swept(old(sessions), now)[state.value := Settle(old(sessions)[state.value], reply, now)]
      ensures Handlers.CallbackRequest(Swept(old(sessions), now), config, code, state).Send? ==>
        resp == (if reply.statusCode != 200 then TextReply(500, "Error getting access token: " + reply.text)
                 else SuccessPage(state.value))
    {
      CleanupSessions(now);
      resp, sent := Callback(config, code, state, reply, now);
    }
  }

  /** The life of one session, from what the contracts alone promise:
      created pending, completed by the callback, evicted two hours later. */
  method LifecycleScenario(config: Config, id: SessionId, token: TokenData)
    requires id != ""
  {
    var relay := new SessionStore();
    var created := relay.CreateSession(id, 1000);
    assert Handlers.Poll(relay.sessions, id) == JsonReply(200, map["status" := "pending"]);
    var redirect := Handlers.LoginWithSession(relay.sessions, config, id);
    assert redirect.RedirectTo?;
    var page, sent := relay.Callback(config, Some("auth-code"), Some(id), ProviderReply(200, token), 1010);
    assert sent.Some? && page == SuccessPage(id);
    assert Handlers.Poll(relay.sessions, id) ==
      JsonReply(200, map["status" := "completed", "token_data" := token]);
    relay.CleanupSessions(1000 + 7200);
    assert Handlers.Poll(relay.sessions, id) == Handlers.InvalidSessionJson;
  }

  /** The callback does not check that the entry is still pending: a
      second callback with the same `state` that the provider refuses turns
      a completed session into an errored one. */
  method RepeatedCallbackScenario(config: Config, id: SessionId, token: TokenData, refusal: string)
    requires id != ""
  {
    var relay := new SessionStore();
    var created := relay.CreateSession(id, 0);
    var first, sent1 := relay.Callback(config, Some("code-1"), Some(id), ProviderReply(200, token), 5);
    assert relay.sessions[id].status == Completed;
    var second, sent2 := relay.Callback(config, Some("code-2"), Some(id), ProviderReply(400, refusal), 6);
    assert sent2.Some? && second.code == 500;
    assert relay.sessions[id].status == Error && relay.sessions[id].tokenData == Some(token);
    assert Handlers.Poll(relay.sessions, id) == JsonReply(200, map["status" := "error", "error" := refusal]);
  }
}
