/** The service as a sequential state machine: requests are handled one after
    another, each atomically, against one store. Over any such run the stored
    documents stay well formed, a user's document changes only through that
    user's accepted writes, and within one month the ledger counts exactly the
    accepted increments and grants. */
module Trace {
  import opened Wrappers
  import opened Ledger
  import opened Service

  /** One request to a quota endpoint, with its `x-api-key` header. */
  datatype Request =
    | GetUsageRequest(apiKey: Option<string>, queryUserId: string)
    | IncrementRequest(apiKey: Option<string>, bodyUserId: Option<string>)
    | GrantRewardRequest(apiKey: Option<string>, bodyUserId: Option<string>)

  /** A request and the UTC month in which it is handled. */
  datatype Step = Step(month: string, request: Request)

  /** The store after handling one request. */
  function Serve(cfg: Config, store: Store, step: Step): Store {
    match step.request
    case GetUsageRequest(key, id) => GetUsage(cfg, store, step.month, key, id).store
    case IncrementRequest(key, id) => UsageIncrement(cfg, store, step.month, key, id).store
    case GrantRewardRequest(key, id) => UsageGrantReward(cfg, store, step.month, key, id).store
  }

  /** The store after handling `steps` in order. */
  function Replay(cfg: Config, store: Store, steps: seq<Step>): Store
    decreases |steps|
  {
    if steps == [] then store else Replay(cfg, Serve(cfg, store, steps[0]), steps[1..])
  }

  /** `r` is an increment the service accepts for `userId`. */
  predicate Increments(cfg: Config, r: Request, userId: string) {
    r.IncrementRequest? && Authorized(cfg, r.apiKey) && userId != [] && BodyUserId(r.bodyUserId) == userId
  }

  /** `r` is a reward grant the service accepts for `userId`. */
  predicate Grants(cfg: Config, r: Request, userId: string) {
    r.GrantRewardRequest? && Authorized(cfg, r.apiKey) && userId != [] && BodyUserId(r.bodyUserId) == userId
  }

  function CountIncrements(cfg: Config, steps: seq<Step>, userId: string): nat
    decreases |steps|
  {
    if steps == [] then 0
    else (if Increments(cfg, steps[0].request, userId) then 1 else 0) + CountIncrements(cfg, steps[1..], userId)
  }

  function CountGrants(cfg: Config, steps: seq<Step>, userId: string): nat
    decreases |steps|
  {
    if steps == [] then 0
    else (if Grants(cfg, steps[0].request, userId) then 1 else 0) + CountGrants(cfg, steps[1..], userId)
  }

  /** Every request, accepted or not, keeps the documents well formed. */
  lemma ServePreservesValid(cfg: Config, store: Store, step: Step)
    requires ValidStore(store)
    ensures ValidStore(Serve(cfg, store, step))
  {
  }

  /** Any run of requests, across any months, keeps the documents well formed:
      counts non-negative and reward grants within [0, RewardMaxPerMonth]. */
  lemma {:induction false} ReplayPreservesValid(cfg: Config, store: Store, steps: seq<Step>)
    requires ValidStore(store)
    ensures ValidStore(Replay(cfg, store, steps))
    decreases |steps|
  {
    if steps != [] {
      ServePreservesValid(cfg, store, steps[0]);
      ReplayPreservesValid(cfg, Serve(cfg, store, steps[0]), steps[1..]);
    }
  }

  /** A request that is not an accepted write for `userId` leaves that user's
      document (or its absence) as it was. */
  lemma ServeLeavesOthers(cfg: Config, store: Store, step: Step, userId: string)
    requires !Increments(cfg, step.request, userId) && !Grants(cfg, step.request, userId)
    ensures userId in Serve(cfg, store, step) <==> userId in store
    ensures userId in store ==> Serve(cfg, store, step)[userId] == store[userId]
  {
  }

  /** Over a run, a user's document changes only through accepted writes for
      that user, whatever other users do. */
  lemma {:induction false} ReplayLeavesOthers(cfg: Config, store: Store, steps: seq<Step>, userId: string)
    requires forall i :: 0 <= i < |steps| ==>
               !Increments(cfg, steps[i].request, userId) && !Grants(cfg, steps[i].request, userId)
    ensures userId in Replay(cfg, store, steps) <==> userId in store
    ensures userId in store ==> Replay(cfg, store, steps)[userId] == store[userId]
    decreases |steps|
  {
    if steps != [] {
      ServeLeavesOthers(cfg, store, steps[0], userId);
      var rest := steps[1..];
      assert forall i :: 0 <= i < |rest| ==>
               !Increments(cfg, rest[i].request, userId) && !Grants(cfg, rest[i].request, userId) by {
        forall i | 0 <= i < |rest|
          ensures !Increments(cfg, rest[i].request, userId) && !Grants(cfg, rest[i].request, userId)
        {
          assert rest[i] == steps[i + 1];
        }
      }
      ReplayLeavesOthers(cfg, Serve(cfg, store, steps[0]), rest, userId);
    }
  }

  /** One request in `month`, seen from `userId`'s counters. */
  lemma ServeTally(cfg: Config, store: Store, month: string, step: Step, userId: string)
    requires userId != []
    requires step.month == month
    requires ReadUsage(store, month, userId).rewardGrants <= RewardMaxPerMonth
    ensures var before := ReadUsage(store, month, userId);
            var after := ReadUsage(Serve(cfg, store, step), month, userId);
            && after.usageCount
                 == before.usageCount + (if Increments(cfg, step.request, userId) then 1 else 0)
            && after.rewardGrants
                 == Min(before.rewardGrants + (if Grants(cfg, step.request, userId) then 1 else 0),
                        RewardMaxPerMonth)
  {
    if !Increments(cfg, step.request, userId) && !Grants(cfg, step.request, userId) {
      ServeLeavesOthers(cfg, store, step, userId);
    }
  }

  /** Within one month, starting from grants no higher than the cap, the ledger
      ends up holding exactly the starting count plus the accepted increments,
      and the starting grants plus the accepted grants capped at
      `RewardMaxPerMonth`. Neither counter ever goes down within the month. */
  lemma {:induction false} ReplayTally(cfg: Config, store: Store, month: string, steps: seq<Step>, userId: string)
    requires userId != []
    requires forall i :: 0 <= i < |steps| ==> steps[i].month == month
    requires ReadUsage(store, month, userId).rewardGrants <= RewardMaxPerMonth
    ensures var before := ReadUsage(store, month, userId);
            var after := ReadUsage(Replay(cfg, store, steps), month, userId);
            && after.usageCount == before.usageCount + CountIncrements(cfg, steps, userId)
            && after.rewardGrants
                 == Min(before.rewardGrants + CountGrants(cfg, steps, userId), RewardMaxPerMonth)
    decreases |steps|
  {
    if steps != [] {
      var next := Serve(cfg, store, steps[0]);
      var rest := steps[1..];
      ServeTally(cfg, store, month, steps[0], userId);
      TailSameMonth(steps, month);
      ReplayTally(cfg, next, month, rest, userId);
      ReplayUnfold(cfg, store, steps);
      CapAbsorbs(ReadUsage(store, month, userId).rewardGrants,
                 if Grants(cfg, steps[0].request, userId) then 1 else 0,
                 CountGrants(cfg, rest, userId));
    }
  }

  /** A run is its first request followed by the rest of the run. */
  lemma ReplayUnfold(cfg: Config, store: Store, steps: seq<Step>)
    requires steps != []
    ensures Replay(cfg, store, steps) == Replay(cfg, Serve(cfg, store, steps[0]), steps[1..])
  {
  }

  /** The rest of a run within one month is within that month. */
  lemma TailSameMonth(steps: seq<Step>, month: string)
    requires steps != []
    requires forall i :: 0 <= i < |steps| ==> steps[i].month == month
    ensures forall i :: 0 <= i < |steps[1..]| ==> steps[1..][i].month == month
  {
    var rest := steps[1..];
    forall i | 0 <= i < |rest| ensures rest[i].month == month {
      assert rest[i] == steps[i + 1];
    }
  }

  /** Capping after each grant is capping once at the end. */
  lemma CapAbsorbs(g: int, d: nat, n: nat)
    requires g <= RewardMaxPerMonth
    ensures Min(Min(g + d, RewardMaxPerMonth) + n, RewardMaxPerMonth) == Min(g + d + n, RewardMaxPerMonth)
  {
  }
}
