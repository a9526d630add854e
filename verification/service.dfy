/** The three quota endpoints of the HTTP service (main.py:49-112): the
    shared-key check, user-id validation, then one ledger operation. A handler
    returns the store as it is after the request together with its reply. */
module Service {
  import opened Wrappers
  import opened Text
  import opened Ledger

  /** Why a request was rejected. */
  datatype Error =
    | InvalidApiKey   // a shared key is configured and the request's differs
    | UserIdRequired  // the user id is missing, empty or whitespace only

  /** The HTTP status the service answers a rejection with. */
  function StatusCode(e: Error): int {
    match e
    case InvalidApiKey => 401
    case UserIdRequired => 400
  }

  /** Process configuration: the shared key requests must present; empty
      means no key is required. */
  datatype Config = Config(backendApiKey: string)

  /** The store after a request and the request's reply. */
  datatype Handled<V> = Handled(store: Store, reply: Result<V, Error>)

  /** The request may proceed: no key is configured, or the request's
      `x-api-key` header (absent = `None`) equals the configured key. */
  predicate Authorized(cfg: Config, apiKey: Option<string>) {
    cfg.backendApiKey == [] || apiKey == Some(cfg.backendApiKey)
  }

  /** The user id a body addresses: its `user_id` field, absent or null read
      as the empty string, trimmed. */
  function BodyUserId(userId: Option<string>): string {
    Trim(userId.GetOr([]))
  }

  /** `GET /usage`: the counters in effect for the trimmed user id and what
      they leave. A stale or missing document reads as zero, and the store is
      never written. */
  function GetUsage(cfg: Config, store: Store, month: string, apiKey: Option<string>, userId: string)
    : (h: Handled<UsageView>)
    ensures h.store == store
    ensures !Authorized(cfg, apiKey) ==> h.reply == Failure(InvalidApiKey)
    ensures Authorized(cfg, apiKey) && AllSpace(userId) ==> h.reply == Failure(UserIdRequired)
    ensures h.reply.Success? <==> Authorized(cfg, apiKey) && !AllSpace(userId)
    ensures h.reply.Success? ==> h.reply.value == ViewOf(ReadUsage(store, month, Trim(userId)))
  {
    if !Authorized(cfg, apiKey) then
      Handled(store, Failure(InvalidApiKey))
    else if userId == [] || Trim(userId) == [] then
      Handled(store, Failure(UserIdRequired))
    else
      Handled(store, Success(ViewOf(ReadUsage(store, month, Trim(userId)))))
  }

  /** `POST /usage/increment`: one more call recorded for the trimmed user id.
      A rejected request leaves the store as it was; an accepted one writes
      that user's document and no other. */
  function UsageIncrement(cfg: Config, store: Store, month: string, apiKey: Option<string>, userId: Option<string>)
    : (h: Handled<UpdateView>)
    ensures !Authorized(cfg, apiKey) ==> h.reply == Failure(InvalidApiKey)
    ensures Authorized(cfg, apiKey) && BodyUserId(userId) == [] ==> h.reply == Failure(UserIdRequired)
    ensures h.reply.Failure? ==> h.store == store
    ensures h.reply.Success? ==>
              && h.store.Keys == store.Keys + {BodyUserId(userId)}
              && (forall id :: id in store && id != BodyUserId(userId) ==> h.store[id] == store[id])
              && ReadUsage(h.store, month, BodyUserId(userId)).usageCount
                   == ReadUsage(store, month, BodyUserId(userId)).usageCount + 1
  {
    if !Authorized(cfg, apiKey) then
      Handled(store, Failure(InvalidApiKey))
    else
      var id := BodyUserId(userId);
      if id == [] then
        Handled(store, Failure(UserIdRequired))
      else
        var w := Increment(store, month, id);
        Handled(w.store, Success(w.view))
  }

  /** `POST /usage/grant_reward`: one more reward recorded for the trimmed
      user id, up to the monthly cap. A rejected request leaves the store as it
      was; an accepted one writes that user's document and no other. */
  function UsageGrantReward(cfg: Config, store: Store, month: string, apiKey: Option<string>, userId: Option<string>)
    : (h: Handled<UpdateView>)
    ensures !Authorized(cfg, apiKey) ==> h.reply == Failure(InvalidApiKey)
    ensures Authorized(cfg, apiKey) && BodyUserId(userId) == [] ==> h.reply == Failure(UserIdRequired)
    ensures h.reply.Failure? ==> h.store == store
    ensures h.reply.Success? ==>
              && h.store.Keys == store.Keys + {BodyUserId(userId)}
              && (forall id :: id in store && id != BodyUserId(userId) ==> h.store[id] == store[id])
              && ReadUsage(h.store, month, BodyUserId(userId)).usageCount
                   == ReadUsage(store, month, BodyUserId(userId)).usageCount
              && ReadUsage(h.store, month, BodyUserId(userId)).rewardGrants <= RewardMaxPerMonth
  {
    if !Authorized(cfg, apiKey) then
      Handled(store, Failure(InvalidApiKey))
    else
      var id := BodyUserId(userId);
      if id == [] then
        Handled(store, Failure(UserIdRequired))
      else
        var w := GrantReward(store, month, id);
        Handled(w.store, Success(w.view))
  }
}
