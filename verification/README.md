# Free-plan quota ledger

A Dafny model of the per-user monthly quota ledger of a small FastAPI backend
(`main.py`). Each user has one document in a Firestore collection, keyed by user
id, holding `usage_count`, `reward_grants` and the `YYYY-MM` month token the
counters belong to. The backend has three quota endpoints:

- `GET /usage` reads the counters. A missing document, or one tagged with
  another month, reads as zero for the current month, and that reset is not
  written back. The reply also reports `remaining`, `can_use` and
  `reward_slots_remaining`.
- `POST /usage/increment` rolls the document over to the current month if
  needed, adds one to `usage_count`, and overwrites the stored document. It does
  not enforce the limit.
- `POST /usage/grant_reward` rolls the document over the same way, sets
  `reward_grants` to `min(grants + 1, 2)`, and overwrites the stored document.

The monthly limit is `1 + min(reward_grants, 2)`. Every endpoint first checks
the `x-api-key` header against the configured shared key. This check is skipped
when no key is configured. Each endpoint then trims the user id and rejects a
blank one.

Modules:

- `Wrappers` (`wrappers.dfy`): `Option` for document fields that may be absent,
  and `Result` for replies that may be errors.
- `Text` (`text.dfy`): Python's `str.strip()`, using the exact whitespace set of
  `str.isspace`. It also proves that trimming is characterised by its result.
- `Ledger` (`ledger.dfy`): stored documents, the store as
  `map<string, StoredDoc>`, the read with month rollover, the limit and reply
  computations, and the two writes.
- `Service` (`service.dfy`): the three endpoints as pure functions from
  configuration, store, current month, header and user id to the new store
  and the reply.
- `Trace` (`trace.dfy`): the service as a sequential state machine over a
  sequence of requests. It proves the invariants and tallies that hold across
  whole runs.
- `QuotaProperties` (`properties.dfy`): properties of single requests.

Abstractions:

- The Firestore collection is a map.
- The current UTC month (`datetime.utcnow().strftime("%Y-%m")`) is an explicit
  parameter. Any string is accepted as a month token.
- A document field the stored document lacks is `None`. The code reads such a
  field with `.get(..., 0)`.
- A month that is missing or different makes the document stale.
- Stored counters are unbounded `int`. The code never validates stored
  documents, so ranges such as "the limit is at least 1" are proved only for
  stores whose documents satisfy `Ledger.ValidStore`. Every endpoint preserves
  `ValidStore` (`Trace.ReplayPreservesValid`).

Two details of the code worth noting:

- The key check comes before user-id validation (main.py:70-75), so a request
  with a wrong key and a blank id gets 401, not 400.
- An increment or grant on a current-month document that lacks the other
  counter leaves that counter absent (main.py:85-86, main.py:108-109). It does
  not write a full record.

## Model

| member | source | states |
|---|---|---|
| Ledger.ReadUsage | main.py:31-44 | The counters in effect are for the current month. A missing document, or one whose month differs, reads as zero counts. On a well-formed store the count is non-negative and the grants lie within [0, 2]. |
| Ledger.EffectiveLimit | main.py:46-47 | The limit never exceeds 3, however many grants are stored. It is at least 1 for non-negative grants. It is 1 + grants inside the cap, and it is exactly 3 iff the grants reach the cap. |
| Ledger.Remaining | main.py:56-57 | `remaining` is never negative. It is positive iff the count is below the limit, and then the count plus `remaining` equals the limit. |
| Ledger.RewardSlots | main.py:58 | Reward slots are never negative. They are zero iff the grants reach the cap, and otherwise they make up the difference to 2. |
| Ledger.ViewOf | main.py:56-66 | The read reply copies the counters and month. `remaining` is never negative, and `can_use` holds exactly when `remaining` is positive, which is exactly when the count is below the effective limit; then count plus `remaining` equals the limit. `reward_slots_remaining` is never negative, is zero exactly when the grants reach the cap, and otherwise makes up the difference to 2. |
| Ledger.Increment | main.py:76-89 | Only the user's key is written, and it is created if missing. The written document is tagged with the current month. A read afterwards shows the rolled-over count plus one and the same grants. The reply equals what that read reports. Well-formed stores stay well formed. |
| Ledger.GrantReward | main.py:99-112 | Only the user's key is written, tagged with the current month. The count is kept. Grants rise by one below the cap and are set to the cap otherwise. The reply equals a read afterwards. Well-formed stores stay well formed. |
| Service.GetUsage | main.py:49-66 | The read never changes the store. A wrong key gives 401, and an authorised blank id gives 400. The reply succeeds iff the key is accepted and the id is not all whitespace. It then reports the view of the trimmed id's counters. |
| Service.UsageIncrement | main.py:68-89 | A wrong key gives 401 and a blank or missing id gives 400, and neither writes anything. An accepted increment writes only the trimmed id's entry and raises that user's count by one. |
| Service.UsageGrantReward | main.py:91-112 | A wrong key gives 401 and a blank or missing id gives 400, and neither writes anything. An accepted grant writes only the trimmed id's entry, keeps the count and leaves grants at most 2. |
| Text.Trim | main.py:53-55 | The trimmed id neither starts nor ends with whitespace. It is empty exactly when the whole id is whitespace, which is when the endpoints reject it. |
| Text.TrimUnique | main.py:73 | Trimming returns exactly the unpadded middle part that has only whitespace around it. This is the reference characterisation of `strip()`. |
| Text.TrimIgnoresPadding | main.py:73 | Adding whitespace on either side of an id does not change its trimmed form. |
| Text.TrimIdempotent | main.py:96 | Trimming an already trimmed id changes nothing. |
| Trace.ServePreservesValid | main.py:76-109 | Any single request keeps every stored count non-negative and every stored grant count within [0, 2]. |
| Trace.ReplayPreservesValid | main.py:68-112 | Over any run of requests, across any months, stored documents stay well formed. So the reward grants these operations produce always stay within [0, 2]. |
| Trace.ServeLeavesOthers | main.py:76-86 | A request that is not an accepted write for a user leaves that user's document, or its absence, unchanged. |
| Trace.ReplayLeavesOthers | main.py:76-109 | Over a whole run, a user's document changes only through accepted increments or grants addressed to that user. |
| Trace.ServeTally | main.py:82-108 | Within a month, one request adds one to the user's count iff it is an accepted increment for them. It raises their grants, capped at 2, iff it is an accepted grant for them. |
| Trace.ReplayTally | main.py:68-112 | Within one month, the final count is the starting count plus the accepted increments. The final grants are the starting grants plus the accepted grants, capped at 2. So neither counter ever decreases within a month. |
| QuotaProperties.ReadRepliesInRange | main.py:55-65 | On a well-formed store the limit lies in [1, 3], and `remaining` lies in [0, 3]. Grants are within [0, 2], and slots plus grants equal 2. `can_use` holds iff `remaining` is positive. |
| QuotaProperties.ReadResetsStaleDocument | main.py:35-39 | With no document, or one from another month, the read reports 0 used, 0 grants, 1 remaining, can use, and 2 slots. The store is unchanged. |
| QuotaProperties.StaleDocumentIsLikeNone | main.py:38-39 | A document from another month is read exactly as if it did not exist. |
| QuotaProperties.IncrementPastLimit | main.py:82-89 | An increment at or past the limit still succeeds and records the call, and it reports 0 remaining. |
| QuotaProperties.IncrementKeepsGrants | main.py:83-89 | An increment keeps the grants and tags the document with the current month. It replies with what a later read would report. |
| QuotaProperties.IncrementNewUser | main.py:79-81 | The first increment of a user with no document stores count 1, grants 0 and the month. It replies with remaining 0, which agrees with the general formula for count 1 against limit 1. |
| QuotaProperties.WriteAfterRolloverStartsFresh | main.py:83-107 | After a month change, an increment yields count 1 and grants 0. A grant yields count 0 and grants 1. |
| QuotaProperties.GrantRaisesUpToCap | main.py:105-108 | Below the cap, a grant keeps the count and adds exactly one grant. |
| QuotaProperties.GrantIdempotentAtCap | main.py:108-109 | At the cap, a grant leaves the store unchanged and reports 2 grants. |
| QuotaProperties.GrantsSaturate | main.py:102-109 | From any well-formed state, two grants in a month reach the cap, and any further grant changes nothing. |
| QuotaProperties.PaddedIdsAddressSameDocument | main.py:53-55 | On every endpoint, an id padded with whitespace behaves exactly like the unpadded id. |
| QuotaProperties.BlankUserIdRejected | main.py:53-54 | On `GET /usage` an empty or all-whitespace query id, and on the two POST endpoints a missing, empty or all-whitespace body id (main.py:73-75, 96-98), gets status 400 for any store and month, and nothing is written. |
| QuotaProperties.WrongKeyRejectedFirst | main.py:70-71 | When a key is configured, a request with a different key or no key gets status 401 whatever its user id, and nothing is written. |
| QuotaProperties.OpenServiceIgnoresKey | main.py:93-94 | When no key is configured, every endpoint behaves the same whatever key is sent. |
| QuotaProperties.AcceptedRead | main.py:55-66 | An accepted read of a trimmed id is the ledger read of that id, and the store is unchanged. |
| QuotaProperties.AcceptedIncrement | main.py:76-89 | An accepted increment of a trimmed id is the ledger increment of that id. |
| QuotaProperties.AcceptedGrant | main.py:99-112 | An accepted grant of a trimmed id is the ledger grant of that id. |
| QuotaProperties.FreshUserScenario | main.py:49-112 | For a fresh user: a read shows 1 remaining and 2 slots. One increment leaves 0 remaining. After one grant, a read shows count 1, 1 grant, 1 remaining, can use, and 1 slot. |

## Left out

- `/extract` and `call_vertex` (main.py:115-188) are left out. They make one HTTPS call to a remote generation service with credential refresh and token-usage logging, and their behaviour belongs to services outside this repository.
- `/health` is left out because it returns a constant.
- Firestore I/O (`db`, `_get_usage_ref`, `ref.get`, `ref.set`) is replaced by a map. Writes overwrite the whole document.
- The system clock (`_current_month`) is left out. The month token is a parameter.
- Concurrency is left out. Concurrent requests for the same user can interleave their read-modify-write and lose updates. The model handles requests one at a time, each atomically.
- Document fields other than `usage_count`, `reward_grants` and `month` are not modelled. A same-month write in the code carries such fields along, and a rollover drops them.
- Stored counters that are not integers are not modelled. In the code a string or other non-numeric counter raises a 500 error when arithmetic is done on it, while a float or boolean counter goes through `+ 1`, `min` and `max` without error and the reply then carries a float (or an integer derived from the boolean). A non-string month simply counts as a mismatch, which the model covers as a month that differs.
- Invalid Firestore document ids are not modelled. `document(user_id)` (main.py:29) raises an error, answered with 500, for an id Firestore refuses, such as one with an odd number of `/` (`"a/b"`); the model accepts every non-blank id as a key.
- The 64-bit limit on integers stored in Firestore is not modelled. Counters are unbounded `int`, so an increment past the largest 64-bit value is not modelled as failing.
- A `user_id` in a body that is not a string is not modelled. So is a body that is not a JSON object. The code raises a 500 error for these, and it treats any other falsy value like a missing one.
- A missing `user_id` query parameter on `GET /usage` is not modelled. The framework rejects it before the handler runs.
- The `detail` strings of the HTTP errors ("Invalid API key", "user_id required") are not modelled. Only the status codes are.
