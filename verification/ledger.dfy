/** The per-user monthly quota ledger of the free plan: one stored document per
    user id holding the month's usage count, the month's reward grants and the
    `YYYY-MM` month token the counters belong to (main.py:17-112).

    The document collection is a map from user id to document; the current UTC
    month is passed in by the caller instead of being read from the clock. */
module Ledger {
  import opened Wrappers

  /** Calls every user gets each month without any reward. */
  const FreeBasePerMonth: int := 1
  /** Most reward grants that count towards one month's limit. */
  const RewardMaxPerMonth: int := 2

  /** A stored document as the store returns it. A field the document lacks is
      `None`; the handlers read a missing counter as 0 and a missing month as
      "not the current month". */
  datatype StoredDoc = StoredDoc(usageCount: Option<int>, rewardGrants: Option<int>, month: Option<string>)

  /** The document collection, keyed by (trimmed) user id. */
  type Store = map<string, StoredDoc>

  /** The counters in effect for one user in one month. */
  datatype Usage = Usage(usageCount: int, rewardGrants: int, month: string)

  /** The reply of the read endpoint. */
  datatype UsageView = UsageView(
    usageCount: int,
    rewardGrants: int,
    month: string,
    remaining: int,
    canUse: bool,
    rewardSlotsRemaining: int)

  /** The reply of the increment and grant endpoints. */
  datatype UpdateView = UpdateView(usageCount: int, rewardGrants: int, month: string, remaining: int)

  /** A document write together with the reply computed from the written document. */
  datatype Written = Written(store: Store, view: UpdateView)

  /** The counters of a user who has done nothing yet this month. */
  function Fresh(month: string): Usage {
    Usage(0, 0, month)
  }

  function Min(x: int, y: int): int {
    if x <= y then x else y
  }

  function Max(x: int, y: int): int {
    if x >= y then x else y
  }

  /** The document belongs to `month`; any other document is logically reset. */
  predicate IsCurrent(doc: StoredDoc, month: string) {
    doc.month == Some(month)
  }

  /** A document as the handlers write it: counters non-negative and the
      grants within the monthly cap. Absent fields read as 0 and qualify. */
  predicate ValidDoc(doc: StoredDoc) {
    && doc.usageCount.GetOr(0) >= 0
    && 0 <= doc.rewardGrants.GetOr(0) <= RewardMaxPerMonth
  }

  predicate ValidStore(store: Store) {
    forall id :: id in store ==> ValidDoc(store[id])
  }

  /** The counters in effect for `userId` in `month`: the stored ones when the
      document exists and is tagged with `month`, zero otherwise. Nothing is
      written back. */
  function ReadUsage(store: Store, month: string, userId: string): (u: Usage)
    ensures u.month == month
    ensures userId !in store || !IsCurrent(store[userId], month) ==> u == Fresh(month)
    ensures ValidStore(store) ==> u.usageCount >= 0 && 0 <= u.rewardGrants <= RewardMaxPerMonth
  {
    if userId !in store then
      Fresh(month)
    else
      var data := store[userId];
      if !IsCurrent(data, month) then
        Fresh(month)
      else
        Usage(data.usageCount.GetOr(0), data.rewardGrants.GetOr(0), month)
  }

  /** The month's limit: the base allowance plus the reward grants, counting at
      most `RewardMaxPerMonth` of them however many are stored. */
  function EffectiveLimit(rewardGrants: int): (limit: int)
    ensures limit <= FreeBasePerMonth + RewardMaxPerMonth
    ensures rewardGrants >= 0 ==> limit >= FreeBasePerMonth
    ensures 0 <= rewardGrants <= RewardMaxPerMonth ==> limit == FreeBasePerMonth + rewardGrants
    ensures limit == FreeBasePerMonth + RewardMaxPerMonth <==> rewardGrants >= RewardMaxPerMonth
  {
    FreeBasePerMonth + Min(rewardGrants, RewardMaxPerMonth)
  }

  /** Calls left this month: what separates the count from the limit, and 0
      (never negative) once the count has reached or passed the limit. */
  function Remaining(u: Usage): (r: int)
    ensures r >= 0
    ensures r > 0 <==> u.usageCount < EffectiveLimit(u.rewardGrants)
    ensures r > 0 ==> u.usageCount + r == EffectiveLimit(u.rewardGrants)
  {
    Max(0, EffectiveLimit(u.rewardGrants) - u.usageCount)
  }

  /** Reward grants that can still be earned this month. */
  function RewardSlots(rewardGrants: int): (r: int)
    ensures r >= 0
    ensures r == 0 <==> rewardGrants >= RewardMaxPerMonth
    ensures r > 0 ==> rewardGrants + r == RewardMaxPerMonth
  {
    Max(0, RewardMaxPerMonth - rewardGrants)
  }

  /** The read endpoint's reply for the counters `u`. */
  function ViewOf(u: Usage): (v: UsageView)
    ensures v.usageCount == u.usageCount && v.rewardGrants == u.rewardGrants && v.month == u.month
    ensures v.remaining >= 0
    ensures v.canUse <==> v.remaining > 0
    ensures v.canUse <==> u.usageCount < EffectiveLimit(u.rewardGrants)
    ensures v.remaining > 0 ==> u.usageCount + v.remaining == EffectiveLimit(u.rewardGrants)
    ensures v.rewardSlotsRemaining >= 0
    ensures v.rewardSlotsRemaining == 0 <==> u.rewardGrants >= RewardMaxPerMonth
    ensures v.rewardSlotsRemaining > 0 ==> u.rewardGrants + v.rewardSlotsRemaining == RewardMaxPerMonth
  {
    var remaining := Remaining(u);
    UsageView(u.usageCount, u.rewardGrants, u.month, remaining, remaining > 0,
              RewardSlots(u.rewardGrants))
  }

  /** The increment and grant endpoints' reply for the counters `u`. */
  function Report(u: Usage): UpdateView {
    UpdateView(u.usageCount, u.rewardGrants, u.month, Remaining(u))
  }

  /** The document to update: the stored one if it belongs to `month`, a
      zeroed one for `month` otherwise. */
  function RolledOver(doc: StoredDoc, month: string): StoredDoc {
    if IsCurrent(doc, month) then doc else StoredDoc(Some(0), Some(0), Some(month))
  }

  /** Records one call for `userId`: the document is rolled over to `month` if
      needed, its count goes up by one and it replaces the stored one. The
      limit is not enforced. The reply agrees with what a read right after the
      write would report. */
  function Increment(store: Store, month: string, userId: string): (w: Written)
    ensures w.store.Keys == store.Keys + {userId}
    ensures forall id :: id in store && id != userId ==> w.store[id] == store[id]
    ensures IsCurrent(w.store[userId], month)
    ensures var before := ReadUsage(store, month, userId);
            ReadUsage(w.store, month, userId)
              == Usage(before.usageCount + 1, before.rewardGrants, month)
    ensures w.view == Report(ReadUsage(w.store, month, userId))
    ensures ValidStore(store) ==> ValidStore(w.store)
  {
    if userId !in store then
      Written(store[userId := StoredDoc(Some(1), Some(0), Some(month))], UpdateView(1, 0, month, 0))
    else
      var data := RolledOver(store[userId], month);
      var count := data.usageCount.GetOr(0) + 1;
      var data' := data.(usageCount := Some(count));
      var grants := data'.rewardGrants.GetOr(0);
      Written(store[userId := data'], UpdateView(count, grants, month, Remaining(Usage(count, grants, month))))
  }

  /** Records one reward for `userId`: the document is rolled over to `month`
      if needed, its grants go up by one but not past `RewardMaxPerMonth`, and
      it replaces the stored one. The count is kept. */
  function GrantReward(store: Store, month: string, userId: string): (w: Written)
    ensures w.store.Keys == store.Keys + {userId}
    ensures forall id :: id in store && id != userId ==> w.store[id] == store[id]
    ensures IsCurrent(w.store[userId], month)
    ensures var before := ReadUsage(store, month, userId);
            var after := ReadUsage(w.store, month, userId);
            && after.usageCount == before.usageCount
            && after.rewardGrants <= RewardMaxPerMonth
            && (before.rewardGrants < RewardMaxPerMonth ==> after.rewardGrants == before.rewardGrants + 1)
            && (before.rewardGrants >= RewardMaxPerMonth ==> after.rewardGrants == RewardMaxPerMonth)
    ensures w.view == Report(ReadUsage(w.store, month, userId))
    ensures ValidStore(store) ==> ValidStore(w.store)
  {
    var data :=
      if userId !in store then
        StoredDoc(Some(0), Some(1), Some(month))
      else
        var doc := RolledOver(store[userId], month);
        doc.(rewardGrants := Some(Min(doc.rewardGrants.GetOr(0) + 1, RewardMaxPerMonth)));
    var count := data.usageCount.GetOr(0);
    var grants := data.rewardGrants.GetOr(0);
    Written(store[userId := data], UpdateView(count, grants, month, Remaining(Usage(count, grants, month))))
  }
}
