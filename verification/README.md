# Session store of the Spotify OAuth relay

A Dafny model of the one stateful part of `oauth-spotify.py`: the in-memory
table `auth_store` that maps a session id to a record (`created`, `status` ∈
{pending, completed, error}, and the optional `error`, `token_data` and
`completed_at`), and the handlers that read or change it.

- `query.dfy` — module `Query`: `"&".join` and `str.split` on strings, and
  the lemmas that splitting undoes joining when no field holds the separator.
- `sessions.dfy` — module `Sessions`: the record, the table, the handler
  responses, the callback's update of one record (`Settle`) and the TTL
  sweep as a function (`Swept`).
- `handlers.dfy` — module `Handlers`: the read-only handler logic — the
  relay-secret decision of `require_auth`, the `poll_session` response, the
  authorize redirect of `login_with_session`, and the input checks in front
  of the callback's code exchange and of `/refresh`.
- `relay.dfy` — module `Relay`: class `SessionStore`, whose `sessions` map
  is the table and whose methods `CreateSession`, `Login`, `Callback` and
  `CleanupSessions` update it in place, and whose `HandlePoll`,
  `HandleLoginWithSession` and `HandleCallback` run the before-request sweep
  ahead of the handler as a request does; the sweep's first loop as the
  read-only method `CollectExpired`; and two client methods
  (`LifecycleScenario`, `RepeatedCallbackScenario`) that follow a session
  through its life using only the contracts.

The provider's HTTP answer, the new uuid and the clock are parameters:
`Callback` receives the provider's status code and body, `CreateSession` and
`Login` receive an id that is not yet in the table, and every operation that
reads the time receives `now` in whole seconds.

The model follows the code as written; in particular:

- the scope is the fixed string `user-read-private user-read-email`, and the
  client credentials are the process-wide ones; `login_with_session` writes
  nothing to the record;
- `callback` does not check that the record is still pending: a second
  callback with the same `state` runs the exchange again and overwrites the
  status, so statuses do not only move forward (`RepeatedCallbackScenario`
  shows a completed session becoming an errored one);
- a re-run callback writes only the keys of its branch, so a record can keep a
  stale `token_data` or `error` from an earlier run;
- the values in the authorize URL are not percent-encoded
  (`AmpersandInClientIdAddsFields`);
- an unknown `state` in the callback is answered with 400, like missing input,
  only with a different message;
- an unset `SPOTIFY_CLIENT_ID` or `REDIRECT_URI` shows up in the authorize URL
  as the text `None`, the way a Python f-string renders it.

## Model

| member | source | states |
|---|---|---|
| `Relay.SessionStore.constructor` | oauth-spotify.py:22 | the table starts empty |
| `Relay.SessionStore.CreateSession` | oauth-spotify.py:92-99 | with a fresh id, adds exactly one entry `{created = now, status = pending}`, answers with that id, leaves every other entry as it was, and keeps every entry well formed |
| `Relay.SessionStore.Login` | oauth-spotify.py:122-129 | the same insertion as `create_session`, then a redirect to `/login/<id>` |
| `Relay.SessionStore.Callback` | oauth-spotify.py:132-164 | missing/empty `code` or `state`, or an unknown `state`: the check's 400 answer, nothing sent, table unchanged; otherwise the code-exchange form is sent and only the entry named by `state` changes: non-200 sets status error and error text to the body and answers 500 with that text, 200 sets status completed, token data and completion time and answers the success page |
| `Relay.SessionStore.CleanupSessions` | oauth-spotify.py:223-232 | removes exactly the entries with `now - created > 3600`, whatever their status; an entry aged exactly 3600 stays; survivors are unchanged |
| `Relay.SessionStore.HandlePoll` | oauth-spotify.py:222-232 | the sweep at `now` runs before the poll, so an entry older than 3600 s polls as the 404 answer; the table afterwards is the swept one |
| `Relay.SessionStore.HandleLoginWithSession` | oauth-spotify.py:222-232 | the sweep at `now` runs before `login_with_session`, so an expired id is answered 400 like an unknown one |
| `Relay.SessionStore.HandleCallback` | oauth-spotify.py:222-232 | the sweep at `now` runs before the callback: an expired `state` is rejected as unknown with nothing sent and the table only swept; otherwise the callback's contract holds on the swept table |
| `Relay.CollectExpired` | oauth-spotify.py:224-229 | the collected ids are exactly the expired keys, each once |
| `Sessions.Settle` | oauth-spotify.py:154-164 | non-200: status error and error text = body, token data and completion time untouched; 200: status completed, token data = body, completion time = now, error text untouched; creation time never changes; a well-formed record stays well formed |
| `Sessions.SweptExactly` | oauth-spotify.py:226-232 | an id survives the sweep iff it was present and its age is at most 3600; survivors keep their record; age exactly 3600 survives |
| `Sessions.SweptLater` | oauth-spotify.py:223-232 | a sweep at t1 followed by one at t2 ≥ t1 equals one sweep at t2 (so a sweep is idempotent) |
| `Sessions.SweptWellFormed` | oauth-spotify.py:231-232 | removing entries keeps the table well formed |
| `Handlers.RequireAuth` | oauth-spotify.py:28-38 | empty configured secret: every request passes; otherwise the supplied secret is the `X-Proxy-Secret` header when non-empty, else the `proxy_secret` parameter, and the request passes iff it equals the configured secret, else 401 |
| `Handlers.Poll` | oauth-spotify.py:180-196 | unknown id iff the 404 answer; for a known id the answer always has `status`, has `token_data` exactly when completed and `error` exactly when errored, no other key, and an errored entry without error text reads "Unknown error"; being a function of the table it changes nothing |
| `Handlers.PollNewSession` | oauth-spotify.py:94-99 | right after insertion the new id polls as pending and every other id polls as before |
| `Handlers.PollAfterExpiry` | oauth-spotify.py:182-183 | an entry the sweep evicted polls as the 404 answer, like one never issued |
| `Handlers.AuthorizeUrl` | oauth-spotify.py:108-118 | the URL starts with the authorize endpoint and "?" and ends with `&state=<session id>` |
| `Handlers.AuthorizeQueryFields` | oauth-spotify.py:110-118 | when no value holds "&", splitting the query on "&" gives back `response_type=code`, `client_id=…`, `scope=…`, `redirect_uri=…`, `state=<id>` in that order |
| `Handlers.AmpersandInClientIdAddsFields` | oauth-spotify.py:118 | values are inserted unescaped: a client id holding "&" makes the query split into more than five fields |
| `Handlers.LoginWithSession` | oauth-spotify.py:103-119 | unknown id iff the 400 answer, with no redirect; a known id redirects to the authorize URL for that id |
| `Handlers.CallbackRequest` | oauth-spotify.py:133-150 | a token request is sent iff `code` and `state` are present and non-empty and `state` names an entry; missing input and unknown state give their two 400 answers; the form carries the process-wide credentials |
| `Handlers.RefreshRequest` | oauth-spotify.py:201-212 | rejected with 400 iff `refresh_token` is missing or empty, before anything is sent; otherwise the refresh form carries the grant type, the token and the client id |
| `Query.SplitJoin` | oauth-spotify.py:118 | splitting a `"&".join` of fields free of "&" gives the fields back |

## Left out

- Flask routing, `redirect`, `jsonify`, `render_template_string`, `abort` and the decorator wrapping: handler results are the `Response` datatype; `RequireAuth` is the decision alone and is not composed with the handlers it guards.
- The token-endpoint calls (`requests.post`): the callback takes the provider's status code and body as a parameter; the part of `/refresh` after its input check (non-200 gives 500 with the provider's text, 200 passes the body through) is not modelled, as it reads no state and decides nothing.
- JSON decoding of the provider's body (`response.json()`): the token data is kept as the body text, so a 200 answer that is not JSON, which would raise in the handler, is not modelled.
- `/refresh` bodies whose `refresh_token` is present but not a string: the token is an optional string.
- `uuid.uuid4()`: the new id is a parameter, required not to be in the table.
- `time.time()`: time is whole seconds, not a float.
- Environment-variable parsing, the demo page, the index page and logging.
- Concurrency: the model is sequential, as the code does nothing to coordinate simultaneous requests.
- `Handlers.Poll`: requires that the polled entry, when completed, has its token data; every table the `SessionStore` methods build satisfies this, and on a completed entry without it the handler would fail on the missing key, which is not modelled.
- `Handlers.Poll`, `Handlers.LoginWithSession`, `Handlers.CallbackRequest`, `Relay.SessionStore.CreateSession`, `Relay.SessionStore.Login` and `Relay.SessionStore.Callback`: each is the handler alone, without the before-request sweep that runs ahead of every request; the sweep is `Relay.SessionStore.CleanupSessions`, and `Relay.SessionStore.HandlePoll`, `Relay.SessionStore.HandleLoginWithSession` and `Relay.SessionStore.HandleCallback` compose it with the three handlers that look entries up, so that an expired entry is never seen; `create_session` and `login` are not composed with it.
- `Relay.SessionStore.Callback`: a token request that raises (connection error, time-out) makes the handler fail with 500 and leave the entry unchanged; the model has the provider always answer, so it updates the entry whenever the input checks pass.
- `Relay.CollectExpired`: visits the keys in an arbitrary order rather than the dictionary's insertion order; only the set of collected ids matters to the sweep.
