/** The relay's session table: the record kept per authorization attempt,
    the provider's answer to a token exchange, the responses the handlers
    give, and the two record-level transitions (settling a callback and
    expiring by age). */
module Sessions {

  datatype Option<+T> = None | Some(value: T)

  /** A request value that the handlers accept: present and not the empty
      string (Python's truthiness test on an optional string). */
  predicate Present(v: Option<string>)
  {
    v.Some? && v.value != ""
  }

  datatype Status = Pending | Completed | Error

  /** The text the poll response carries for each status. */
  function StatusName(s: Status): string
  {
    match s
    case Pending => "pending"
    case Completed => "completed"
    case Error => "error"
  }

  type SessionId = string

  /** The provider's token document, kept as the text of its JSON body. */
  type TokenData = string

  /** One entry of the table. Only `created` and `status` are written when
      the entry is made; the three optional keys are added by the callback
      and are never removed, so a later callback can leave stale ones. */
  datatype Session = Session(
    created: int,
    status: Status,
    error: Option<string>,
    tokenData: Option<TokenData>,
    completedAt: Option<int>)

  type Store = map<SessionId, Session>

  /** Entries older than this many seconds are evicted. */
  const SessionTtl: int := 3600

  /** The entry that `create_session` and `login` insert. */
  function NewSession(now: int): Session
  {
    Session(now, Pending, None, None, None)
  }

  /** A completed entry has its token document and completion time, an
      errored one its error text. */
  predicate WellFormed(s: Session)
  {
    && (s.status == Completed ==> s.tokenData.Some? && s.completedAt.Some?)
    && (s.status == Error ==> s.error.Some?)
  }

  predicate StoreWellFormed(store: Store)
  {
    forall id :: id in store ==> WellFormed(store[id])
  }

  /** Process-wide settings; the provider credentials and redirect URI
      may be unset. */
  datatype Config = Config(
    clientId: Option<string>,
    clientSecret: Option<string>,
    redirectUri: Option<string>,
    proxySecret: string)

  /** The provider's answer to a token request. */
  datatype ProviderReply = ProviderReply(statusCode: int, text: string)

  /** One field of a form-encoded request to the provider's token endpoint. */
  datatype FormField = FormField(name: string, value: Option<string>)

  /** What a handler answers. */
  datatype Response =
    | JsonReply(code: int, fields: map<string, string>)
    | TextReply(code: int, text: string)
    | RedirectTo(location: string)
    | SuccessPage(sessionId: SessionId)

  /** A handler's input check either answers at once or goes on to send a
      token request to the provider. */
  datatype Exchange = Rejected(reply: Response) | Send(form: seq<FormField>)

  /** The callback's update of one entry after the token exchange: a
      non-200 answer records the error, a 200 answer the token document and
      the time. Fields the branch does not write keep their old values. */
  function Settle(s: Session, reply: ProviderReply, now: int): (t: Session)
    ensures t.created == s.created
    ensures reply.statusCode != 200 ==>
      t.status == Error && t.error == Some(reply.text) &&
      t.tokenData == s.tokenData && t.completedAt == s.completedAt
    ensures reply.statusCode == 200 ==>
      t.status == Completed && t.tokenData == Some(reply.text) &&
      t.completedAt == Some(now) && t.error == s.error
    ensures WellFormed(s) ==> WellFormed(t)
  {
    if reply.statusCode != 200 then
      s.(status := Error).(error := Some(reply.text))
    else
      s.(status := Completed).(tokenData := Some(reply.text)).(completedAt := Some(now))
  }

  /** An entry is expired when its age is strictly above the TTL. */
  predicate Expired(s: Session, now: int)
  {
    now - s.created > SessionTtl
  }

  /** The table after the expiry sweep at time `now`. */
  function Swept(store: Store, now: int): Store
  {
    map id | id in store && !Expired(store[id], now) :: store[id]
  }

  /** The sweep removes exactly the expired entries, whatever their status,
      keeps an entry whose age is exactly the TTL, and leaves survivors as
      they were. */
  lemma SweptExactly(store: Store, now: int, id: SessionId)
    ensures id in Swept(store, now) <==> id in store && now - store[id].created <= SessionTtl
    ensures id in Swept(store, now) ==> Swept(store, now)[id] == store[id]
    ensures id in store && now - store[id].created == SessionTtl ==> id in Swept(store, now)
  {
  }

  /** Sweeping at an earlier time and then at a later one is the same as
      sweeping once at the later time; in particular a sweep is idempotent. */
  lemma SweptLater(store: Store, t1: int, t2: int)
    requires t1 <= t2
    ensures Swept(Swept(store, t1), t2) == Swept(store, t2)
  {
  }

  lemma SweptWellFormed(store: Store, now: int)
    requires StoreWellFormed(store)
    ensures StoreWellFormed(Swept(store, now))
  {
  }
}
