/** Properties of single requests to the quota endpoints: limits and replies
    stay in range, month rollover, the unenforced limit on increment, the
    reward ceiling, trimming of user ids, and the order of the checks. */
module QuotaProperties {
  import opened Wrappers
  import opened Text
  import opened Ledger
  import opened Service

  /** On a store of well-formed documents every read reply is in range: the
      limit is between 1 and 3, so at most 3 calls remain, grants are within
      the cap and the free reward slots complement them. */
  lemma ReadRepliesInRange(cfg: Config, store: Store, month: string, apiKey: Option<string>, userId: string)
    requires ValidStore(store)
    requires Authorized(cfg, apiKey) && !AllSpace(userId)
    ensures var v := GetUsage(cfg, store, month, apiKey, userId).reply.value;
            && v.usageCount >= 0
            && 0 <= v.rewardGrants <= RewardMaxPerMonth
            && FreeBasePerMonth <= EffectiveLimit(v.rewardGrants) <= FreeBasePerMonth + RewardMaxPerMonth
            && 0 <= v.remaining <= FreeBasePerMonth + RewardMaxPerMonth
            && v.rewardSlotsRemaining + v.rewardGrants == RewardMaxPerMonth
            && (v.canUse <==> v.remaining > 0)
  {
  }

  /** A user without a document, or whose document belongs to another month,
      reads as a fresh user of the current month: nothing used, no grants, one
      call left, two reward slots. The stored document is not touched. */
  lemma ReadResetsStaleDocument(cfg: Config, store: Store, month: string, apiKey: Option<string>, userId: string)
    requires Authorized(cfg, apiKey) && !AllSpace(userId)
    requires Trim(userId) !in store || !IsCurrent(store[Trim(userId)], month)
    ensures GetUsage(cfg, store, month, apiKey, userId)
              == Handled(store, Success(UsageView(0, 0, month, 1, true, 2)))
  {
  }

  /** A document of another month is read exactly as if it were not there. */
  lemma StaleDocumentIsLikeNone(cfg: Config, store: Store, month: string, apiKey: Option<string>, userId: string)
    requires Trim(userId) in store && !IsCurrent(store[Trim(userId)], month)
    ensures GetUsage(cfg, store, month, apiKey, userId).reply
              == GetUsage(cfg, store - {Trim(userId)}, month, apiKey, userId).reply
  {
  }

  /** Increment does not enforce the limit: at or past the limit it still
      succeeds, records the call and reports nothing remaining. */
  lemma IncrementPastLimit(cfg: Config, store: Store, month: string, apiKey: Option<string>, userId: Option<string>)
    requires Authorized(cfg, apiKey) && BodyUserId(userId) != []
    requires var u := ReadUsage(store, month, BodyUserId(userId));
             u.usageCount >= EffectiveLimit(u.rewardGrants)
    ensures var h := UsageIncrement(cfg, store, month, apiKey, userId);
            && h.reply.Success?
            && h.reply.value.remaining == 0
            && h.reply.value.usageCount == ReadUsage(store, month, BodyUserId(userId)).usageCount + 1
  {
  }

  /** Increment keeps the document's grants, tags it with the current month and
      replies with what a read right after it would report. */
  lemma IncrementKeepsGrants(cfg: Config, store: Store, month: string, apiKey: Option<string>, userId: Option<string>)
    requires Authorized(cfg, apiKey) && BodyUserId(userId) != []
    ensures var id := BodyUserId(userId);
            var h := UsageIncrement(cfg, store, month, apiKey, userId);
            && IsCurrent(h.store[id], month)
            && ReadUsage(h.store, month, id).rewardGrants == ReadUsage(store, month, id).rewardGrants
            && h.reply == Success(Report(ReadUsage(h.store, month, id)))
  {
  }

  /** The first increment of a new user stores one call and no grants for the
      month and reports nothing remaining, as the general formula gives for a
      count of 1 against the base limit of 1. */
  lemma IncrementNewUser(cfg: Config, store: Store, month: string, apiKey: Option<string>, userId: Option<string>)
    requires Authorized(cfg, apiKey) && BodyUserId(userId) != []
    requires BodyUserId(userId) !in store
    ensures var h := UsageIncrement(cfg, store, month, apiKey, userId);
            && h.store[BodyUserId(userId)] == StoredDoc(Some(1), Some(0), Some(month))
            && h.reply == Success(UpdateView(1, 0, month, 0))
            && Remaining(Usage(1, 0, month)) == 0
  {
  }

  /** The first write after a month change starts from zero: an increment
      leaves one call and no grants, a grant no calls and one grant. */
  lemma WriteAfterRolloverStartsFresh(cfg: Config, store: Store, month: string, apiKey: Option<string>, userId: Option<string>)
    requires Authorized(cfg, apiKey) && BodyUserId(userId) != []
    requires BodyUserId(userId) !in store || !IsCurrent(store[BodyUserId(userId)], month)
    ensures var id := BodyUserId(userId);
            && ReadUsage(UsageIncrement(cfg, store, month, apiKey, userId).store, month, id) == Usage(1, 0, month)
            && ReadUsage(UsageGrantReward(cfg, store, month, apiKey, userId).store, month, id) == Usage(0, 1, month)
  {
  }

  /** A grant keeps the month's count and raises the grants by one until they
      reach the cap. */
  lemma GrantRaisesUpToCap(cfg: Config, store: Store, month: string, apiKey: Option<string>, userId: Option<string>)
    requires Authorized(cfg, apiKey) && BodyUserId(userId) != []
    requires ReadUsage(store, month, BodyUserId(userId)).rewardGrants < RewardMaxPerMonth
    ensures var id := BodyUserId(userId);
            var h := UsageGrantReward(cfg, store, month, apiKey, userId);
            && ReadUsage(h.store, month, id).usageCount == ReadUsage(store, month, id).usageCount
            && ReadUsage(h.store, month, id).rewardGrants == ReadUsage(store, month, id).rewardGrants + 1
            && h.reply == Success(Report(ReadUsage(h.store, month, id)))
  {
  }

  /** At the cap a grant changes nothing: the stored document stays as it is
      and the reply shows the cap. */
  lemma GrantIdempotentAtCap(cfg: Config, store: Store, month: string, apiKey: Option<string>, userId: Option<string>)
    requires Authorized(cfg, apiKey) && BodyUserId(userId) != []
    requires BodyUserId(userId) in store
    requires IsCurrent(store[BodyUserId(userId)], month)
    requires store[BodyUserId(userId)].rewardGrants == Some(RewardMaxPerMonth)
    ensures var h := UsageGrantReward(cfg, store, month, apiKey, userId);
            && h.store == store
            && h.reply.Success?
            && h.reply.value.rewardGrants == RewardMaxPerMonth
  {
    var id := BodyUserId(userId);
    assert GrantReward(store, month, id).store == store[id := store[id]];
  }

  /** Two grants in a month reach the cap from any well-formed state, and
      every further grant is idempotent. */
  lemma GrantsSaturate(cfg: Config, store: Store, month: string, apiKey: Option<string>, userId: Option<string>)
    requires Authorized(cfg, apiKey) && BodyUserId(userId) != []
    requires ValidStore(store)
    ensures var id := BodyUserId(userId);
            var s1 := UsageGrantReward(cfg, store, month, apiKey, userId).store;
            var s2 := UsageGrantReward(cfg, s1, month, apiKey, userId).store;
            && ReadUsage(s2, month, id).rewardGrants == RewardMaxPerMonth
            && UsageGrantReward(cfg, s2, month, apiKey, userId).store == s2
  {
    var id := BodyUserId(userId);
    var s1 := UsageGrantReward(cfg, store, month, apiKey, userId).store;
    var s2 := UsageGrantReward(cfg, s1, month, apiKey, userId).store;
    assert IsCurrent(s2[id], month);
    assert s2[id].rewardGrants == Some(RewardMaxPerMonth);
    GrantIdempotentAtCap(cfg, s2, month, apiKey, userId);
  }

  /** A user id padded with whitespace addresses the same document as the
      unpadded id, on every endpoint. */
  lemma PaddedIdsAddressSameDocument(cfg: Config, store: Store, month: string, apiKey: Option<string>,
                                     a: string, userId: string, b: string)
    requires AllSpace(a) && AllSpace(b)
    ensures GetUsage(cfg, store, month, apiKey, a + userId + b) == GetUsage(cfg, store, month, apiKey, userId)
    ensures UsageIncrement(cfg, store, month, apiKey, Some(a + userId + b))
              == UsageIncrement(cfg, store, month, apiKey, Some(userId))
    ensures UsageGrantReward(cfg, store, month, apiKey, Some(a + userId + b))
              == UsageGrantReward(cfg, store, month, apiKey, Some(userId))
  {
    TrimIgnoresPadding(a, userId, b);
    assert AllSpace(a + userId + b) <==> AllSpace(userId) by {
      assert Trim(a + userId + b) == [] <==> Trim(userId) == [];
    }
  }

  /** A missing, empty or whitespace-only user id is rejected with status 400
      whatever the store and the month, and nothing is written. */
  lemma BlankUserIdRejected(cfg: Config, store: Store, month: string, apiKey: Option<string>, userId: Option<string>)
    requires Authorized(cfg, apiKey)
    requires userId.None? || AllSpace(userId.value)
    ensures UsageIncrement(cfg, store, month, apiKey, userId) == Handled(store, Failure(UserIdRequired))
    ensures UsageGrantReward(cfg, store, month, apiKey, userId) == Handled(store, Failure(UserIdRequired))
    ensures GetUsage(cfg, store, month, apiKey, userId.GetOr([])) == Handled(store, Failure(UserIdRequired))
    ensures StatusCode(UserIdRequired) == 400
  {
    assert Trim([]) == [];
  }

  /** With a shared key configured, a request with another key or none is
      rejected with status 401 before its user id is looked at, and nothing is
      written. */
  lemma WrongKeyRejectedFirst(cfg: Config, store: Store, month: string, apiKey: Option<string>,
                              queryUserId: string, bodyUserId: Option<string>)
    requires cfg.backendApiKey != []
    requires apiKey != Some(cfg.backendApiKey)
    ensures GetUsage(cfg, store, month, apiKey, queryUserId) == Handled(store, Failure(InvalidApiKey))
    ensures UsageIncrement(cfg, store, month, apiKey, bodyUserId) == Handled(store, Failure(InvalidApiKey))
    ensures UsageGrantReward(cfg, store, month, apiKey, bodyUserId) == Handled(store, Failure(InvalidApiKey))
    ensures StatusCode(InvalidApiKey) == 401
  {
  }

  /** With no shared key configured the header is not checked at all: every
      endpoint behaves the same whatever key the request carries. */
  lemma OpenServiceIgnoresKey(cfg: Config, store: Store, month: string, k1: Option<string>, k2: Option<string>,
                              queryUserId: string, bodyUserId: Option<string>)
    requires cfg.backendApiKey == []
    ensures GetUsage(cfg, store, month, k1, queryUserId) == GetUsage(cfg, store, month, k2, queryUserId)
    ensures UsageIncrement(cfg, store, month, k1, bodyUserId) == UsageIncrement(cfg, store, month, k2, bodyUserId)
    ensures UsageGrantReward(cfg, store, month, k1, bodyUserId) == UsageGrantReward(cfg, store, month, k2, bodyUserId)
  {
  }

  /** An accepted read is the ledger read of the trimmed id. */
  lemma AcceptedRead(cfg: Config, store: Store, month: string, apiKey: Option<string>, userId: string)
    requires Authorized(cfg, apiKey) && Trim(userId) == userId && userId != []
    ensures GetUsage(cfg, store, month, apiKey, userId)
              == Handled(store, Success(ViewOf(ReadUsage(store, month, userId))))
  {
  }

  /** An accepted increment is the ledger increment of the trimmed id. */
  lemma AcceptedIncrement(cfg: Config, store: Store, month: string, apiKey: Option<string>, userId: string)
    requires Authorized(cfg, apiKey) && BodyUserId(Some(userId)) == userId && userId != []
    ensures UsageIncrement(cfg, store, month, apiKey, Some(userId))
              == Handled(Increment(store, month, userId).store, Success(Increment(store, month, userId).view))
  {
  }

  /** An accepted grant is the ledger grant of the trimmed id. */
  lemma AcceptedGrant(cfg: Config, store: Store, month: string, apiKey: Option<string>, userId: string)
    requires Authorized(cfg, apiKey) && BodyUserId(Some(userId)) == userId && userId != []
    ensures UsageGrantReward(cfg, store, month, apiKey, Some(userId))
              == Handled(GrantReward(store, month, userId).store, Success(GrantReward(store, month, userId).view))
  {
  }

  /** A fresh user reads one call left; after one increment none are left;
      after one grant a read shows one grant, one call left and use allowed. */
  lemma FreshUserScenario(cfg: Config, month: string, apiKey: Option<string>, id: string)
    requires Authorized(cfg, apiKey) && Trim(id) == id && id != []
    ensures var empty: Store := map[];
            var r0 := GetUsage(cfg, empty, month, apiKey, id);
            var s1 := UsageIncrement(cfg, empty, month, apiKey, Some(id));
            var s2 := UsageGrantReward(cfg, s1.store, month, apiKey, Some(id));
            var r3 := GetUsage(cfg, s2.store, month, apiKey, id);
            && r0.reply == Success(UsageView(0, 0, month, 1, true, 2))
            && s1.reply.Success? && s1.reply.value.remaining == 0
            && r3.reply == Success(UsageView(1, 1, month, 1, true, 1))
  {
    var empty: Store := map[];
    var one := map[id := StoredDoc(Some(1), Some(0), Some(month))];
    var two := map[id := StoredDoc(Some(1), Some(1), Some(month))];
    AcceptedRead(cfg, empty, month, apiKey, id);
    AcceptedIncrement(cfg, empty, month, apiKey, id);
    assert Increment(empty, month, id) == Written(one, UpdateView(1, 0, month, 0));
    AcceptedGrant(cfg, one, month, apiKey, id);
    assert GrantReward(one, month, id).store == two;
    AcceptedRead(cfg, two, month, apiKey, id);
    assert ReadUsage(two, month, id) == Usage(1, 1, month);
  }
}
