# SearchMeld: a verified model

SearchMeld is a gateway in front of search and extraction providers. It lends the API keys of each
provider to the calls that need one, merges what several providers return, and keeps its own limits.
This project models the parts of it that are hard to get right and proves what they are for.

- **The key pool** (`FixedWindow`, `KeyStates`, `QuotaRuns`, `QuotaWitnesses`, `KeyOrder`, `KeyPool`, `KeyManager`,
  `PoolRuns`, `ManagerRuns`). A grant is decided on a listing that may be stale, and its usage is logged later. `KeyStates` has
  the bookkeeping of one key as a class, `QuotaRuns` the whole protocol of one key as a transition system (listings
  are read, applied in any order and repeatedly, granted on, released, logged late, while days and months roll over
  and limits are edited), `QuotaWitnesses` the runs that reach its bounds on any calendar, `KeyPool` the probing of a
  list of keys, `KeyManager` the manager itself with its leases, `PoolRuns` runs of the whole pool, each of which
  is a run of `QuotaRuns` for every key, and `ManagerRuns` the manager in operation, which goes through such runs.
- **The database side** (`KeyStatus`, `UsageTables`, `UsageRuns`). Tables are maps from their unique key, with
  NULL as one value; statements are executed one by one. `UsageRuns` shows that the sums a listing
  reads are the snapshots of `QuotaRuns`.
- **Extract** (`ExtractNormalize`, `ExtractRoutes`, `ExtractAgreement`, `ExtractSingles`, `ExtractMerge`, `WaterLevel`, `ExtractResponse`, `ExtractPipeline`, with
  `Utf8`): admission of URLs, the routes, the merge, the content budget and the response bound. Strings
  are sequences of bytes.
- **Calls to providers** (`ProviderCalls`, `ExtractBatches`): the retry loops of search and Extract and the
  batches of Extract, against a pool and an upstream that may answer anything.
- **Search** (`SearchMerge`): deduplication and ranking.
- **Limiters** (`LoginLimiter`, `LoginFailures`, `TokenLimiter`).
- **The admin pages** (`SessionProbe`, `RouterGuard`): each run of an asynchronous function between two waits
  is one step, and steps interleave freely.
- **Markdown** (`MarkdownEscapes`): the hand-written passes over inline text, on runes.

Methods change the state that the source changes and are proved equal to functions; the lemmas are
about these functions, over all inputs or all runs. Times are integers in one unit, nanoseconds where a
constant matters. A zero time or an empty string that the source uses for "none" is an optional value.
What the model gets from outside appears as a parameter: answers of the store (`None` when it fails or the
caller is cancelled), clocks, random draws and shuffles, key functions for URLs, the size of an encoded string.

Where promise and code differ:

- "While the tracked day stays, grants stay within the quota, even if a grant is logged several times"
  does not hold of records that are dated before the tracked period and come in after its first listing.
  `GrantsPerPeriod` has the bound for every way of logging: first reported usage + grants + reservations
  carried over <= quota + late records. So the quota holds whenever no more records are late than
  reservations were carried over, and always if records are dated when they are committed
  (`GrantsPerPeriodDatedToday`). `PeriodBoundIsReached` reaches the bound for every quota, every number
  carried over and every number late; `LateRecordsExceedQuota` exceeds every quota by any number.
- A listing is dated by `CURRENT_DATE`, the start of its transaction, and its data may be newer
  (backend/internal/db/store.go:261-265). The quota holds if no listing counts records of a period after its own
  date (`QuotaSafety`, `Aligned`). A listing that does retires a reservation without counting towards the new
  period; with such listings every quota is exceeded by any number (`MisdatedListingsExceedQuota`).
- "An Extract response ends within 12 MiB" does not hold if a published date cannot be encoded. The adapters parse
  dates by a rule that lets an offset of 24 hours through (backend/internal/provider/helpers.go:220-232), and the
  JSON encoder refuses offsets of a day or more. The size then counts as too big at every stage, and the last one
  keeps the date (backend/internal/search/extract.go:1049-1076): all contents are lost and the response still cannot
  be encoded (`DayAheadLosesPage`, `UndatedLosesContent`). The response fits exactly if every date it reports can be
  encoded (`ResponseFitsExactly`), which is to say the first one found for each resolved URL (`ExtractEndToEnd`).
- Fallback and parallel agree on everything for providers that answer in valid UTF-8, which every answer decoded
  from JSON is (backend/internal/provider/helpers.go:126-134): `FallbackIsParallel`. An adapter that
  passed on other bytes could break the agreement on content, and `FallbackAgreesWithParallel` says exactly when.
- Fallback and parallel agree if providers treat URLs one by one. Those that are called for one URL at a time do,
  whatever their keys and retries, as long as the calls end well (`SinglesAreUrlByUrl`, `SinglesAgree`). Those that
  are called for several at once need not: a page that has moved is taken for the requested one only if that is
  asked for alone (backend/internal/search/extract.go:803-817), so that fallback resolves a URL which parallel
  reports as failed (`MovedPageDisagrees`).
- `RecordKeyResult` is a join of statuses except for one branch, a success after a cooldown has run out, which
  lowers the status (`RecordedJoins`). Over any outcomes at any times the status ends up as the highest one asked
  for, except exactly if that is a cooldown and no cooldown holds to the end (`ProcessedIsHighestExactly`).
- A bucket of the login limiter counts fewer than twice its maximum in one window's length only if a lock
  lasts at least one window (`FailuresPerWindow`, `ShortLockoutBreaksBound`).
- A token is admitted at most 2 * limit - 1 times in any minute, one less than twice its limit, because every
  window is opened by an admission; that bound is reached (`BoundIsReached`).
- An escaped text survives the Markdown passes exactly if it has none of the runes that serve as placeholders
  (`EscapeRoundTrip`).

## Model

| member | source | states |
|---|---|---|
| `FixedWindow.SlidingBound` | backend/internal/keypool/manager.go:219-227 | for histories of any fixed-window counter: a half-open interval of one span meets at most two windows, so it holds at most max(cap, first + cap) admissions |
| `FixedWindow.RollKeepsConsistent` | backend/internal/keypool/manager.go:220-223 | restarting an expired window keeps windows a full span apart and every window within its limit |
| `FixedWindow.AdmitKeepsConsistent` | backend/internal/keypool/manager.go:224-226 | counting one more below the limit keeps the same invariant of the whole history |
| `KeyStates.KeyState.ReconcileReservationSnapshot` | backend/internal/keypool/manager.go:279-297 | the first total is taken over, a newer one retires as many reservations as it grew by, an older one changes nothing |
| `KeyStates.ReconcileUsagePeriod` | backend/internal/keypool/manager.go:299-319 | a newer period restarts the usage, the same period raises it, an older one is ignored |
| `KeyStates.KeyState.SyncQuotaState` | backend/internal/keypool/manager.go:237-270 | the whole state after a listing is applied: total, expiry of stale reservations, day and month |
| `KeyStates.KeyState.CanUse` | backend/internal/keypool/manager.go:214-235 | the verdict and the whole state after it, with the window rolled only past the concurrency test |
| `KeyStates.KeyState.Grant` | backend/internal/keypool/manager.go:95-97 | the whole state after a grant: active, window and reservation go up by one |
| `KeyStates.ExpiryForgives` | backend/internal/keypool/manager.go:237-270 | an idle key whose newest reservation is an hour old owes nothing any more and is limited by the usage reported alone; any other key keeps what the listing does not retire |
| `KeyStates.GrantsLastAnHour` | backend/internal/keypool/manager.go:237-277 | a reservation lasts an hour from the newest grant, and as long as a request is running |
| `KeyStates.UsageAfterIsNewestPeak` | backend/internal/keypool/manager.go:299-319 | after any list of reports the tracked period is the newest reported and the usage its highest report |
| `KeyStates.UsageOrderIrrelevant` | backend/internal/keypool/manager.go:312-318 | reports in any other order lead to the same period and usage |
| `QuotaRuns.SnapshotIsConsistent` | backend/internal/db/store.go:261-265 | if no record is dated in a period after the listing's own, its period and usage belong together, and its total is the usage before the period plus the usage in it, though today may be later |
| `QuotaRuns.QuotaSafety` | backend/internal/keypool/manager.go:214-319 | over every run with each grant logged at most once, listings that count no record of a period after their own date, and no expiry, in which the quota may be edited up to `quota` while listings with old limits are in flight: usage of the current period plus grants not logged yet is at most max(quota, usage at the start), and at most the quota once anything was granted or the period changed; for days and months |
| `QuotaRuns.GrantsRespectListings` | backend/internal/keypool/manager.go:214-235 | in any such run, whatever the limits are edited to, each grant leaves that sum within the quota of the very listing it was made on |
| `QuotaRuns.GrantConservation` | backend/internal/keypool/manager.go:272-297 | over every run with each grant logged at most once, whatever listings are dated, observed total + pending reservations = first total + grants made |
| `QuotaRuns.GrantsNeverForgotten` | backend/internal/keypool/manager.go:272-297 | with any logging at all, observed total + pending reservations >= first total + grants made |
| `QuotaRuns.GrantsPerPeriod` | backend/internal/keypool/manager.go:228-319 | however usage is logged and dated and the quota edited up to `quota`, on listings aligned as for `QuotaSafety`: while a period stays tracked, first reported usage + grants + reservations carried over <= quota + late records; so within the quota if no more are late than were carried over |
| `QuotaRuns.GrantsPerPeriodDatedToday` | backend/internal/keypool/manager.go:228-319 | if records are dated at commit none is late, and first reported usage + grants + reservations carried over <= quota, even if grants are logged several times |
| `QuotaRuns.VisitIsVisited` | backend/internal/keypool/manager.go:88-101 | a step of the protocol does to the key what the probe of a list does to each key |
| `QuotaWitnesses.PeriodBoundIsReached` | backend/internal/keypool/manager.go:228-319 | on every calendar with two days in different months, for every quota, number carried over and number late, a run makes exactly as many grants as the bound allows |
| `QuotaWitnesses.LateRecordsExceedQuota` | backend/internal/keypool/manager.go:279-297 | for every n >= 1, a run with n more late records than reservations carried over exceeds the quota by n |
| `QuotaWitnesses.LateDuplicateExceedsQuota` | backend/internal/search/orchestrator.go:139-188 | with a quota of one, yesterday's grant logged twice after today's first listing lets two grants through today |
| `QuotaWitnesses.MisdatedListingsExceedQuota` | backend/internal/db/store.go:261-265 | with listings that count records of the day after their date, each grant logged once and on its own day, every quota is exceeded by any number, on any calendar |
| `QuotaRuns.FreshListingRefusesOnlyAtQuota` | backend/internal/keypool/manager.go:214-235 | on a fresh listing the pool's belief equals the true demand, and the key is usable if and only if every cap and quota has room |
| `QuotaRuns.GrantsPerMinute` | backend/internal/keypool/manager.go:216-227 | over every run, any half-open minute has at most 2 * rpm grants of a key, however its limit is edited up to `rpm` |
| `QuotaRuns.GrantsAtOnce` | backend/internal/keypool/manager.go:216-218 | over every run the active count of a key never passes its concurrency cap, however that is edited up to `most` |
| `QuotaWitnesses.MinuteBoundIsReached` | backend/internal/keypool/manager.go:219-227 | for every limit a run has twice as many grants in one minute, its first window opened by a visit that the quota refused |
| `UsageTables.Store.UpsertUsage` | backend/internal/db/store.go:929-990 | the table after the row of the request and the row of each call with a key |
| `UsageTables.Store.DeleteAPIToken` | backend/internal/db/store.go:720-766 | both tables without the token, its rows folded into the rows without a token |
| `UsageTables.FoldToken` | backend/internal/db/store.go:727-746 | inserting or adding the token's rows one by one and then deleting them is the table without the token |
| `UsageTables.TokenGone` | backend/internal/db/store.go:744-764 | no row of the token is left, rows of other tokens are untouched, and a group has a row without a token if and only if it had one or the token had |
| `UsageTables.UpsertAdds` | backend/internal/db/store.go:948-955 | an insert or update adds its columns to exactly the sums its group belongs to |
| `UsageTables.DeletionConserves` | backend/internal/db/store.go:727-763 | for every selection of groups and every column, deleting a token keeps the sum over all rows |
| `UsageRuns.LoggedAdds` | backend/internal/db/store.go:956-988 | a logged request adds to a key's usage one for each of its calls with that key, at today's date |
| `UsageRuns.KeyColumnsAdd` | backend/internal/db/store.go:956-988 | the columns of successes, failures, cache hits, results and latency grow by what the calls of the key come to |
| `UsageRuns.RequestColumnsAdd` | backend/internal/db/store.go:930-956 | and the row of the request by what the request came to |
| `UsageTables.LoggedForToken` | backend/internal/db/store.go:930-988 | a request touches rows of its own token and day only, or rows without a token if it has none |
| `UsageRuns.UsageIsLog` | backend/internal/db/store.go:262-265 | over every run of requests and deletions, a key's usage over any set of dates is the number of its calls at them |
| `UsageRuns.ListingIsSnapshot` | backend/internal/db/store.go:261-265 | the three sums of a listing are the day, month and total of the quota protocol's snapshot |
| `KeyStatus.ProviderKey.RecordKeyResult` | backend/internal/db/store.go:567-609 | the whole row after an outcome, each column computed from the old row |
| `KeyStatus.RecordedJoins` | backend/internal/db/store.go:588-593 | the new status is the maximum of the old and the one asked for if and only if no expired cooldown is cleared |
| `KeyStatus.OutcomeMeans` | backend/internal/db/store.go:567-609 | what a success and each kind of failure make of status and cooldown, for each status before; a limited key cools down for fifteen minutes |
| `KeyStatus.ProcessedIsHighestExactly` | backend/internal/db/store.go:588-604 | over any outcomes at any times, the status is the highest asked for, except exactly if that is a cooldown and none holds to the end |
| `KeyStatus.SevereIsHighest` | backend/internal/db/store.go:588-593 | it is never above the highest, and equal to it if that is exhausted or disabled, whatever the clocks |
| `KeyStatus.SevereIgnoresOrder` | backend/internal/db/store.go:588-593 | then outcomes in any other order lead to the same status |
| `KeyStatus.StatusIsHighest` | backend/internal/db/store.go:588-593 | over any outcomes during which no cooldown runs out, neither the one on record nor one they start, the status is the highest of all |
| `KeyStatus.HighestIsMaximum` | backend/internal/db/store.go:588-593 | that status is at least each status asked for and the initial one, and is one of them |
| `KeyStatus.StatusIgnoresOrder` | backend/internal/db/store.go:588-597 | outcomes in any other order lead to the same status and counters |
| `KeyStatus.ExpiredCooldownBreaksOrder` | backend/internal/db/store.go:591-592 | with a cooldown that runs out, two outcomes in two orders lead to two statuses |
| `KeyStatus.DeadlineNeverEarlier` | backend/internal/db/store.go:598-604 | a deadline that is live at every outcome never moves earlier, and the key never becomes enabled |
| `KeyStatus.CountersAddUp` | backend/internal/db/store.go:595-597 | successes + failures grow by the number of outcomes, and the current failures are those since the last success |
| `StableSort.SortPermutes` | backend/internal/keypool/manager.go:127-137 | what the library's stable sort is relied on for: the same elements |
| `StableSort.SortOrders` | backend/internal/keypool/manager.go:127-137 | in the order of the comparison |
| `StableSort.SortKeepsPeers` | backend/internal/keypool/manager.go:127-137 | with equivalent elements in their old order |
| `KeyOrder.PickWeighted` | backend/internal/keypool/manager.go:169-189 | the selected key is the one whose share of the total weight holds the draw |
| `KeyOrder.SelectionUnique` | backend/internal/keypool/manager.go:179-189 | each draw selects exactly one key |
| `KeyOrder.DrawsByWeight` | backend/internal/keypool/manager.go:164-189 | of all draws exactly as many select a key as its weight, or one if that is not positive |
| `KeyOrder.WeightedKeyOrder` | backend/internal/keypool/manager.go:165-194 | a permutation in which each key was drawn by weight from what was left |
| `KeyPool.ProbeGrantsNearestUsable` | backend/internal/keypool/manager.go:88-120 | the probe grants the usable key nearest to the start, visits exactly the keys before it, leaves all others alone, and refuses if and only if none is usable |
| `KeyPool.ProbeIsNearest` | backend/internal/keypool/manager.go:88-120 | which key is granted depends on the start and on which keys are usable only |
| `KeyPool.DistanceShrinks` | backend/internal/keypool/manager.go:99-101 | a grant to a nearer key brings the position strictly closer to a waiting key |
| `KeyPool.RoundRobinBoundedWaiting` | backend/internal/keypool/manager.go:88-101 | over any run of probes of the key states, with arbitrary changes in between and an unchanged list of n keys, a key usable at each probe is granted within n |
| `KeyManager.Manager.OrderKeys` | backend/internal/keypool/manager.go:123-147 | the keys as each strategy arranges them: by number of calls, then longest unused, then id, or shuffled, drawn by weight or as listed; and which strategies reset the position |
| `KeyManager.InTurnOrFromTheFirst` | backend/internal/keypool/manager.go:149-165 | keys in turn are tried from the position, and the position moves on behind the key granted; all others are tried from the first |
| `KeyManager.Manager.ProbeKeys` | backend/internal/keypool/manager.go:88-94 | the loop over object states computes the probe of the keys in cyclic order |
| `KeyManager.Manager.Acquire` | backend/internal/keypool/manager.go:60-121 | every reply with its exact condition, the state of all keys, one more lease on a grant and none otherwise, the counts of all providers with the provider cap kept, and all positions: moved on by a grant in turn, reset by sorting and shuffling, else left alone; by least use the key lent has the fewest calls of all usable ones |
| `KeyManager.Manager.Release` | backend/internal/keypool/manager.go:102-117 | the first release lowers both counts by exactly one, another changes nothing, and the counts stay the numbers of open leases |
| `KeyManager.Lend` | backend/internal/keypool/manager.go:95-102 | a grant keeps every count equal to the number of open leases |
| `KeyManager.GiveBack` | backend/internal/keypool/manager.go:105-113 | so does a first release, whose counts are never zero |
| `KeyManager.Manager.ActiveIsSumOfKeys` | backend/internal/keypool/manager.go:95-113 | in every valid state of the manager a provider's active count is the sum of its keys' active counts |
| `KeyManager.Manager.CapsHold` | backend/internal/keypool/manager.go:83-86 | over any run of acquires and releases a provider never has more keys out than the highest cap its grants were made under, if each was made under one |
| `KeyManager.ProviderActiveIsSumOfKeys` | backend/internal/keypool/manager.go:95-113 | so it is for any leases of which the provider's are those on its keys |
| `PoolRuns.ProbeOfOne` | backend/internal/keypool/manager.go:88-101 | what a probe does to one key: a visit on its own row, granted if usable, unless a key before it is granted; nothing otherwise |
| `PoolRuns.PoolProjects` | backend/internal/keypool/manager.go:60-121 | any run of acquires over lists of keys, with any listings in flight, is for every key a run of its quota protocol, in the same regime of logging |
| `PoolRuns.PoolQuotaSafety` | backend/internal/keypool/manager.go:60-121 | so every key's usage plus its grants not logged yet stays within its quota, over all runs of the pool |
| `PoolRuns.PoolConservesGrants` | backend/internal/keypool/manager.go:272-297 | and its observed total + pending reservations = first total + grants made |
| `PoolRuns.PoolGrantsAtOnce` | backend/internal/keypool/manager.go:216-218 | and it never has more requests under way than its concurrency cap |
| `PoolRuns.PoolGrantsPerMinute` | backend/internal/keypool/manager.go:216-227 | any half-open minute of a run of the pool has at most 2 * rpm grants of a key |
| `PoolRuns.PoolGrantsPerPeriod` | backend/internal/keypool/manager.go:228-319 | and while a key tracks a period its grants keep the bound of `GrantsPerPeriod` |
| `ManagerRuns.Service.Acquire` | backend/internal/keypool/manager.go:60-121 | whatever the manager has gone through, an acquire that gets as far as trying keys is the next step of a valid run of the pool, with the states the manager is left in and the key it grants; any other acquire is none |
| `ManagerRuns.Service.Release` | backend/internal/keypool/manager.go:102-117 | the first release of a lease is the next step of that run, another is none |
| `ManagerRuns.Service.KeysWithinQuota` | backend/internal/keypool/manager.go:60-121 | so over everything a manager can go through, every key's usage plus its grants not logged yet stays within its quota |
| `ManagerRuns.Service.StateAccountsForGrants` | backend/internal/keypool/manager.go:272-297 | and what its state has observed and has pending is the first total + grants made |
| `ManagerRuns.Service.KeysWithinCap` | backend/internal/keypool/manager.go:216-218 | and its active count is within its concurrency cap |
| `LoginLimiter.AuthService.constructor` | backend/internal/api/auth.go:82-106 | each setting or its default: five attempts, five minutes, fifteen minutes |
| `LoginLimiter.AuthService.PruneLoginWindows` | backend/internal/api/auth.go:350-360 | the loop leaves exactly the buckets that have not expired |
| `LoginLimiter.AuthService.LoginLocked` | backend/internal/api/auth.go:329-347 | the verdict and the whole table: pruned, with a reserved bucket for a new key that is let through; refused if and only if, by that table, the key has a live lock or no bucket, and without a bucket only if the table is full |
| `LoginLimiter.AuthService.RecordLoginFailure` | backend/internal/api/auth.go:365-388 | the verdict and the whole table after a failure; limited if and only if, by that table, the key is locked or has no bucket, the failure that sets a lock included |
| `LoginLimiter.AuthService.ClearLogin` | backend/internal/api/auth.go:138-141 | a success removes the bucket of its key and no other |
| `LoginLimiter.VerdictsJustified` | backend/internal/api/auth.go:112-143 | over any interleaving, every attempt and every failed login is told that it is limited exactly for those causes in the table of that moment, and never with a negative maximum |
| `LoginLimiter.TableBounded` | backend/internal/api/auth.go:340-345 | over any interleaving, the table never has more buckets than its bound |
| `LoginLimiter.LockHoldsStep` | backend/internal/api/auth.go:329-388 | no step shortens or drops a live lock or admits anyone on its key, but for a success on that key |
| `LoginLimiter.LiveLockHolds` | backend/internal/api/auth.go:112-143 | over any interleaving while a lock is live: the bucket is untouched, nobody new reaches the account lookup and everybody is told so, or a login that was in flight before the lock, that very one, has succeeded |
| `LoginLimiter.LoginLimiterSafety` | backend/internal/api/auth.go:112-143 | the same for every lock in every run from the start, together with the bound |
| `LoginFailures.CountKeeps` | backend/internal/api/auth.go:377-387 | counting a failure keeps the invariant between a bucket and its history, including the lock at the maximum |
| `LoginFailures.FailuresPerWindow` | backend/internal/api/auth.go:350-388 | over every run with a lock at least as long as the window, between successes any window's length has at most 2 * max - 1 counted failures of a key |
| `LoginFailures.ShortLockoutBreaksBound` | backend/internal/api/auth.go:381-384 | with any shorter lock some run has 2 * max of them |
| `TokenLimiter.AuthService.AllowToken` | backend/internal/api/auth.go:394-412 | the verdict and the whole table |
| `TokenLimiter.AdmissionsPerMinute` | backend/internal/api/auth.go:402-411 | over every run, any half-open minute has at most 2 * limit - 1 admissions of a token, however its limit is edited below `limit` |
| `TokenLimiter.BoundIsReached` | backend/internal/api/auth.go:402-411 | for every limit some run reaches that bound |
| `TokenLimiter.RefusedExactly` | backend/internal/api/auth.go:402-411 | a call is refused if and only if a window that has not run out has admitted as many as the call's limit |
| `Utf8.ValidIffEncoded` | backend/internal/search/extract.go:942-945 | validity is being the encoding of Unicode scalar values (section 4 of RFC 3629) |
| `Utf8.TruncateString` | backend/internal/search/extract.go:935-947 | the longest valid prefix within the limit, or the string itself, and which of the two |
| `Utf8.ValidLosesAtMostThree` | backend/internal/search/extract.go:942-945 | a valid string loses at most three bytes below the limit |
| `Utf8.TruncateTwice` | backend/internal/search/extract.go:935-947 | truncating to a and then to b <= a is truncating to b |
| `UniqueNames.AppendUnique` | backend/internal/search/orchestrator.go:721-731 | a name is appended unless it is empty or there already |
| `ExtractNormalize.AdmitURLs` | backend/internal/search/extract.go:201-230 | the refusals with their exact causes, the URL named being the first that fails; an admission means that all URLs passed the checks, duplicates too, and keeps the trimmed URLs distinct by key |
| `ExtractNormalize.FirstByKeySound` | backend/internal/search/extract.go:209-230 | they are distinct, were all asked for, and cover every key asked for |
| `ExtractNormalize.FirstByKeyKeepsFirst` | backend/internal/search/extract.go:209-230 | of URLs with one key the first is kept |
| `ExtractNormalize.CorrelateResultURL` | backend/internal/search/extract.go:803-817 | a result goes to the requested URL with its key, or to the only one requested |
| `ExtractNormalize.NormalizeProviderResults` | backend/internal/search/extract.go:743-801 | every returned item is kept, refused or ignored as its verdict says, in order |
| `ExtractNormalize.KeptIsRequested` | backend/internal/search/extract.go:743-801 | a kept result is for a requested URL, is named, within all limits, and has content unless it was not valid UTF-8 |
| `ExtractNormalize.KeptFields` | backend/internal/search/extract.go:743-873 | each field of a kept result and each of its flags, by the field returned and what the request asks for |
| `ExtractNormalize.JudgedExactly` | backend/internal/search/extract.go:743-801 | which results are kept, which are passed over, and which are refused, for which cause and under which URL |
| `ExtractNormalize.KeptMembers` | backend/internal/search/extract.go:743-801 | a result is in the list if and only if some item's verdict kept it, and no item yields two entries |
| `ExtractNormalize.InvalidContentVanishes` | backend/internal/search/extract.go:935-947 | content that starts with no character is cut to nothing |
| `ExtractNormalize.NormalizeProviderFailures` | backend/internal/search/extract.go:819-840 | the first hundred failures a provider reports, trimmed, named and bounded |
| `ExtractNormalize.ReportedFailureIsNamed` | backend/internal/search/extract.go:819-840 | each names its provider and a cause, within all limits |
| `ExtractNormalize.BoundImages` | backend/internal/search/extract.go:885-918 | the images after trimming, deduplication and the three limits |
| `ExtractNormalize.ImagesWithinLimits` | backend/internal/search/extract.go:885-918 | they are distinct and within every limit |
| `ExtractNormalize.ImagesComplete` | backend/internal/search/extract.go:885-918 | they come from the input, unless marked truncated none is missing, and one within the limits is left out only if there is no room |
| `ExtractRoutes.UnresolvedExtractURLs` | backend/internal/search/extract.go:1085-1097 | the requested URLs without a result, in order |
| `ExtractRoutes.ExtractFallback` | backend/internal/search/extract.go:589-603 | the executions of fallback over any providers |
| `ExtractRoutes.ExtractParallel` | backend/internal/search/extract.go:575-587 | the executions of parallel, in the order of the providers |
| `ExtractRoutes.FallbackSendsUnresolved` | backend/internal/search/extract.go:589-603 | each provider is sent exactly the URLs no earlier one resolved, and the loop stops exactly when none is left |
| `ExtractRoutes.FallbackAgreesWithParallel` | backend/internal/search/extract.go:575-603 | for providers that treat URLs one by one, both routes resolve the same URLs in the same order with the same primary providers, and have the same content if and only if the first provider with results for the URL has content there or nobody has |
| `ExtractRoutes.ModesAgreeFully` | backend/internal/search/extract.go:575-603 | if no provider returns a result without content, they agree on content too |
| `ExtractAgreement.NormaliserKeepsContent` | backend/internal/search/extract.go:743-801 | every result the normaliser keeps of a valid UTF-8 answer has content |
| `ExtractAgreement.FallbackIsParallel` | backend/internal/search/extract.go:575-603 | for providers that treat URLs one by one and answer in valid UTF-8, both routes agree on URLs, primary providers and contents everywhere |
| `ExtractAgreement.EmptyContentDisagrees` | backend/internal/search/extract.go:743-801 | an adapter that passed on bytes which are not UTF-8 would make the contents differ: normalised, they are kept with nothing left |
| `ExtractSingles.SinglesAreUrlByUrl` | backend/internal/search/extract.go:623-673 | providers that are called for one URL at a time treat URLs one by one, whatever keys they use and however often they retry, if their calls end well and they answer a URL the same each time |
| `ExtractSingles.SinglesAgree` | backend/internal/search/extract.go:575-603 | so for such providers that answer in valid UTF-8 both routes agree on URLs, primary providers and contents |
| `ExtractSingles.MovedPageDisagrees` | backend/internal/search/extract.go:803-817 | providers that answer each URL by itself, but are asked for several at once, do not: a page that has moved is resolved by fallback and not by parallel |
| `ExtractMerge.MergeDetails` | backend/internal/search/extract.go:1159-1184 | gaps of an entry are filled field by field |
| `ExtractMerge.EarliestFieldWins` | backend/internal/search/extract.go:1159-1184 | each field of a merged result is the first non-empty one among its results; URL and provider are the first's |
| `ExtractMerge.NamesOfAll` | backend/internal/search/extract.go:1110-1130 | its list of providers has exactly the names its results give |
| `ExtractMerge.CollectResults` | backend/internal/search/extract.go:1110-1130 | the table of merged results by key, each entry being the merge of all results for it |
| `ExtractMerge.MergeExtractResults` | backend/internal/search/extract.go:1099-1152 | the merged results and the failures, each list in request order |
| `ExtractMerge.SortedIsExpected` | backend/internal/search/extract.go:1132-1138 | sorting the table by request order gives the results in request order, whatever order they were found in |
| `ExtractMerge.MergePartition` | backend/internal/search/extract.go:1099-1152 | every requested URL is in exactly one list, both are in request order, nothing else is in either |
| `ExtractMerge.AggregateFailure` | backend/internal/search/extract.go:1186-1223 | the failure for a URL, from the complaints about it |
| `ExtractMerge.ComplaintsExactly` | backend/internal/search/extract.go:1186-1215 | these are exactly the failures reported for this URL and the errors of the executions, one for each, and nothing said of another URL |
| `ExtractMerge.FailureReports` | backend/internal/search/extract.go:1190-1223 | a failure has every complaint with its provider in its error, the first error type there is, the provider if only one complains and none if two do, each cut to its limit |
| `ExtractMerge.BoundFailure` | backend/internal/search/extract.go:875-883 | a failure's fields cut to their limits |
| `WaterLevel.FindWaterLevel` | backend/internal/search/extract.go:966-980 | the binary search finds the greatest cap whose capped sum fits the budget |
| `WaterLevel.CapResultContent` | backend/internal/search/extract.go:985-992 | every content in the array is cut at the limit and marked |
| `WaterLevel.BoundMergedResults` | backend/internal/search/extract.go:949-983 | within the budget nothing changes, over it every content is cut at the water level, in place |
| `WaterLevel.WaterLevelIsTight` | backend/internal/search/extract.go:966-992 | the total is within (M - 4n, M] for valid contents, and results within the cap are untouched |
| `WaterLevel.WaterLevelUnique` | backend/internal/search/extract.go:966-980 | there is only one such cap |
| `ExtractResponse.Response.Bound` | backend/internal/search/extract.go:994-1068 | the staged shrinking in place, with its halving loop, ends as specified, and within the bound exactly if all published dates can be encoded; it loses least, as `ShrunkLosesLeast` says |
| `ExtractResponse.ShrunkLosesLeast` | backend/internal/search/extract.go:1013-1043 | nothing is dropped if the response fits; only raw payloads if that is enough; pictures too if that is enough; otherwise contents are cut at the greatest of 262144, 131072, ..., 0 at which it fits, with every other field, usage and summary kept |
| `ExtractResponse.TidyKeepsShort` | backend/internal/search/extract.go:1004-1012 | texts of failures and summaries within their limits are left alone |
| `ExtractResponse.EveryTextCounts` | backend/internal/search/extract.go:1070-1076 | the size counts every text of an entry |
| `ExtractResponse.ResponseFitsExactly` | backend/internal/search/extract.go:994-1076 | a response within the limits on requests and names ends within 12 MiB if and only if every published date in it can be encoded |
| `ExtractResponse.UndatedLosesContent` | backend/internal/search/extract.go:1034-1076 | otherwise all contents, raw payloads and usage are lost, and it still does not fit |
| `ExtractResponse.DayAheadLosesPage` | backend/internal/provider/helpers.go:220-232 | so an offset of 24 hours loses a page of one byte, while with an offset one minute shorter the response is left alone |
| `ExtractResponse.HalvedIsOneCut` | backend/internal/search/extract.go:1023-1035 | however often the limit is halved, the contents are as if cut once, and the loop ends at a fit or at nothing |
| `ExtractResponse.CompactFitsExactly` | backend/internal/search/extract.go:1036-1068 | the last resort, which keeps the dates, fits if and only if they can be encoded |
| `ExtractResponse.ShrunkKeepsResults` | backend/internal/search/extract.go:994-1068 | no result is lost and all contents are cut at one common limit |
| `ExtractResponse.ShrunkKeepsFailures` | backend/internal/search/extract.go:994-1068 | no failure, its URL or call summary is lost |
| `ExtractResponse.ShrunkReports` | backend/internal/search/extract.go:994-1068 | a response that was changed says so, and one that fits is left alone |
| `ExtractPipeline.CallsCarryAskedUrls` | backend/internal/search/extract.go:634-733 | whatever a provider is asked for, in batches or not, its results are normalised answers and carry URLs that were asked for |
| `ExtractPipeline.AnswersAreWellBehaved` | backend/internal/search/extract.go:743-801 | such results carry requested URLs, and short names if the adapter's are |
| `ExtractPipeline.RoutesAreExecuted` | backend/internal/search/extract.go:575-603 | both routes ask providers for requested URLs only, so what they execute consists of such calls |
| `ExtractPipeline.ExtractEndToEnd` | backend/internal/search/extract.go:116-139 | for executions made of such calls, merge, budget and bound together: the response fits if and only if the first published date found for each resolved URL can be encoded, and else has no content; in any case its two lists partition the requested URLs in order, each entry with the URL exactly as requested |
| `ProviderCalls.CallExtractAdapter` | backend/internal/search/extract.go:674-733 | the trace of the pool and the upstream is exactly what the attempts record, and results, failures and error follow from the last attempt, normalised |
| `ProviderCalls.CallProvider` | backend/internal/search/orchestrator.go:369-470 | the same for search, with the provider's own limit, and silence for an unregistered provider |
| `ProviderCalls.AttemptsInOrder` | backend/internal/search/orchestrator.go:402-467 | attempts are numbered from 1 to at most retries + 1, one is to be retried if and only if another follows, and the loop stops no earlier than a success, a refusal, a final error or the last retry |
| `ProviderCalls.AttemptsDetermined` | backend/internal/search/extract.go:686-731 | the answers of the pool and the upstream leave no choice of attempts |
| `ProviderCalls.LeasesAreLinear` | backend/internal/search/extract.go:689-705 | every key lent is used and given back exactly once, before the next is asked for |
| `ProviderCalls.Retries` | backend/internal/search/extract.go:678-687 | three retries unless configured; a configured number is kept between 0 and 20 and otherwise moved to the nearer end |
| `ProviderCalls.DefaultRetries` | backend/internal/search/orchestrator.go:472-483 | by default every attempt but the last failed with one of the five errors another key may cure, and the last did not unless the retries are used up |
| `ProviderCalls.RetriedErrors` | backend/internal/search/orchestrator.go:472-483 | which errors are retried by default, and that a configured list decides alone |
| `ProviderCalls.LastKeyIsLast` | backend/internal/search/extract.go:709-731 | the key reported is that of the last attempt that had one |
| `ProviderCalls.ProviderLimitReplaces` | backend/internal/search/orchestrator.go:388-391 | a provider's own limit replaces the one asked for |
| `ExtractBatches.BatchesPartition` | backend/internal/search/extract.go:636-645 | batches are consecutive, not empty, full but for the last, and make up the URLs |
| `ExtractBatches.SplitURLs` | backend/internal/search/extract.go:635-645 | the splitting loop |
| `ExtractBatches.CallExtractProvider` | backend/internal/search/extract.go:612-672 | batches are called in order until one fails; trace, results and attempts are those of the calls, renumbered |
| `ExtractBatches.AggregateReports` | backend/internal/search/extract.go:646-660 | attempts are numbered on across batches, only the last batch may have failed, and its error and key are reported |
| `ExtractBatches.AggregateJoins` | backend/internal/search/extract.go:647-660 | the results, failures and attempts are those of the batches, one after the other |
| `ExtractBatches.NothingStaysOut` | backend/internal/search/extract.go:662-672 | on every path each key is given back as often as it was lent |
| `SearchMerge.MergeResults` | backend/internal/search/orchestrator.go:668-707 | the first `limit` entries of the stably ranked merge, and the number of results absorbed; scores fall, titles of equal scores rise in byte order, and nothing cut off has a higher score than an entry kept |
| `SearchMerge.StrLessIsByteOrder` | backend/internal/search/orchestrator.go:698-703 | titles are compared in byte order: a proper prefix first, otherwise the smaller byte at the first difference |
| `SearchMerge.OpenedSays` | backend/internal/search/orchestrator.go:681-695 | the names an entry starts with |
| `SearchMerge.DeduplicatedNext` | backend/internal/search/orchestrator.go:679-696 | one more result changes the entry of its page, or opens one, and nothing else |
| `SearchMerge.NothingLost` | backend/internal/search/orchestrator.go:675-696 | entries before the limit + absorbed results = results with a page |
| `SearchMerge.OneEntryPerPage` | backend/internal/search/orchestrator.go:679-696 | there is exactly one entry for each page that a result has |
| `SearchMerge.EntryIsBest` | backend/internal/search/orchestrator.go:681-695 | an entry is its first result with the maximum score and the providers of all later ones, and no others |
| `SearchMerge.BeforeIsStrictWeakOrder` | backend/internal/search/orchestrator.go:698-703 | score descending, then title, is an order to sort by |
| `SearchMerge.OutputIsRanked` | backend/internal/search/orchestrator.go:698-706 | the output is ranked and stable, and what the limit cuts off ranks no higher |
| `SessionProbe.SessionStore.AdvanceRevision` | frontend/src/stores/session.ts:40-48 | the whole store after a revision advance |
| `SessionProbe.SessionStore.Check` | frontend/src/stores/session.ts:55-82 | the whole store and the promise returned: the pending one of this revision, or a new one |
| `SessionProbe.SessionStore.Settle` | frontend/src/stores/session.ts:63-79 | the whole store after a probe ends; its result is authenticated, anonymous or unknown exactly if a profile, none or an error came back, and a current one sets the profile accordingly |
| `SessionProbe.AnswerShown` | frontend/src/stores/session.ts:63-79 | what each answer to a current probe makes of profile, status and error |
| `SessionProbe.AdvanceSupersedes` | frontend/src/stores/session.ts:40-48 | an advance supersedes every probe there is, clears what they left on the pages and keeps the profile |
| `SessionProbe.CheckShown` | frontend/src/stores/session.ts:55-61 | a check that joins a pending probe changes nothing, another clears error and target and shows that it is checking |
| `SessionProbe.ProbeProtocol` | frontend/src/stores/session.ts:55-82 | over any interleaving: one live probe per revision at most, checking if and only if one of the current revision is live, and further checks join that one |
| `SessionProbe.CheckIsFresh` | frontend/src/stores/session.ts:50-56 | a check never returns a settled probe or one of another revision |
| `SessionProbe.SupersededIsSilent` | frontend/src/stores/session.ts:66-77 | a superseded probe changes nothing the pages show and leaves the newer one pending |
| `SessionProbe.ResultsLast` | frontend/src/stores/session.ts:67-72 | over any run a probe keeps its revision and its result |
| `RouterGuard.Router.BeforeEach` | frontend/src/router/index.ts:88-91 | the guard's state up to its first wait |
| `RouterGuard.Router.Resume` | frontend/src/router/index.ts:91-107 | the guard's state and decision from a wait on |
| `RouterGuard.Router.RecheckSession` | frontend/src/router/index.ts:62-81 | when a recovery starts, is shared or is ignored, and the slot it takes |
| `RouterGuard.Router.EndRecovery` | frontend/src/router/index.ts:71-78 | what the end of a recovery writes, and that only its own slot is freed |
| `RouterGuard.AdmittedExactly` | frontend/src/router/index.ts:88-107 | a protected page is admitted if and only if the navigation is the newest, the probe is of the current revision and authenticated, and the page is known |
| `RouterGuard.DecidedExactly` | frontend/src/router/index.ts:88-107 | exactly who is sent to log in, who is redirected and where to, who is shown a public page and who is cancelled, and when a target to try again is left |
| `RouterGuard.RecoveryStarts` | frontend/src/router/index.ts:62-72 | what starts a recovery, is shared or is ignored, and the page it goes to |
| `RouterGuard.RecoveryReports` | frontend/src/router/index.ts:71-77 | a failed recovery of the current revision shows why and where to try again |
| `RouterGuard.GuardSafety` | frontend/src/router/index.ts:52-107 | over any interleaving, every admission was so, on an answer of the server that found a user, or nobody for a public page, and that came in after the navigation began; and at most one recovery of a revision is under way, admissions or not |
| `RouterGuard.TwoProbesAtMost` | frontend/src/router/index.ts:93-97 | a navigation waits for at most two probes, the second only after a revision change |
| `RouterGuard.StaleRecoveryIsSilent` | frontend/src/router/index.ts:71-78 | a recovery of an old revision ends without touching the store or the newer recovery's slot |
| `MarkdownEscapes.ProtectMarkdownEscapes` | backend/internal/provider/firecrawl.go:496-511 | each escaped special character becomes its placeholder |
| `MarkdownEscapes.RestoreMarkdownEscapes` | backend/internal/provider/firecrawl.go:513-525 | each placeholder becomes its character |
| `MarkdownEscapes.StripMarkdownDelimiter` | backend/internal/provider/firecrawl.go:436-464 | the scanning loop ends and strips the valid pairs from left to right |
| `MarkdownEscapes.ValidMarkdownDelimiter` | backend/internal/provider/firecrawl.go:466-488 | a pair is valid if it encloses text that does not touch it with a space, between boundaries |
| `MarkdownEscapes.StrippingKeepsTheRest` | backend/internal/provider/firecrawl.go:436-464 | all other characters stay, in order |
| `MarkdownEscapes.EmphasisIsUnwrapped` | backend/internal/provider/firecrawl.go:436-464 | the first pair around proper emphasis is taken off and the text inside kept |
| `MarkdownEscapes.ImproperPairStays` | backend/internal/provider/firecrawl.go:436-488 | a pair around nothing, next to a space or inside a word stays, and stripping goes on behind its first delimiter |
| `MarkdownEscapes.LoneDelimiterStays` | backend/internal/provider/firecrawl.go:441-450 | and so does a delimiter without a second one |
| `MarkdownEscapes.OtherBackslashesStay` | backend/internal/provider/firecrawl.go:496-511 | a backslash before any other character is left alone |
| `MarkdownEscapes.EscapeRoundTrip` | backend/internal/provider/firecrawl.go:377-397 | escaping all special characters, then protecting, stripping and restoring, gives the text back if and only if it has no placeholder runes |

## Left out

- Expiry of reservations after an hour, and several server replicas: excluded by hypothesis from the quota theorems, because expiry gives up the bound on purpose; the expiry itself is part of `SyncQuotaState`.
- Deleting a provider key, or a cap lifted to none, during a run of `PoolRuns` or `QuotaRuns`: the quota theorems are of keys that stay, with quotas that are edited but not lifted; `GrantsRespectListings` has no such hypothesis on limits.
- Integer widths: counts, totals and sizes are unbounded; 64-bit overflow would need more requests than can be made.
- Mutexes: what runs under one is one step; `Acquire` is split where the source unlocks, around its store queries.
- KeyManager.Manager.Acquire: a listing is taken to be of keys of the provider asked for, each of which belongs to one provider for life, as the query sees to (backend/internal/db/store.go:269-271).
- KeyManager.Manager.Release: ends before `RecordKeyResult` is called, which has its own model in `KeyStatus`.
- Status changes made outside `RecordKeyResult`: admin edits, and the official quota, which overwrites any status with exhausted.
- UsageTables.Store.UpsertUsage: without the meter rows of `insertCallUsage`, whose quantities come from price settings in floating point.
- Deleting a provider key: removes usage rows on purpose.
- The consistency of one query under concurrent commits is the database's own; only its date may be older than its data.
- ExtractRoutes.ExtractParallel: the goroutines of a parallel request are calls in the order of the providers; their results are stored by position in the source too, and how they interleave shows only in what each provider answers, which is arbitrary here.
- ExtractRoutes.ExtractFallback: a provider's answer is a function of its name and of the URLs it is sent; a route asks each provider once, so any run has such a function. What a call does to keys and retries is modelled in `ProviderCalls` and `ExtractBatches`.
- ExtractNormalize.AdmitURLs: URL parsing, address checks, DNS and `extractURLKey` are parameters, as is trimming; formats, depths and options of a request are not modelled.
- The encoded size of a response is a sum over its parts, with a parameter for strings; raw payloads and images count by their size only, dates by what RFC 3339 needs of them. Names and formats set by an adapter are taken to have at most 64 bytes, as all those in the repository have.
- Cancellation in the middle of a request: an answer of the pool or the upstream may be an error at any time, which covers it.
- Latencies, call timeouts and the refresh of official quotas beside a call.
- SearchMerge.MergeResults: scores are exact, so NaN is out; `canonicalURL` is a parameter.
- The search cache, request coalescing, routing and the choice of providers.
- LoginLimiter: password hashing, sessions and tokens of logged-in admins; an overlong user name is refused before the limiter.
- TokenLimiter: quotas of tokens, which are queries.
- SessionProbe.SessionStore.Check: a reader that throws before its first wait; the pages pass one that never does.
- RouterGuard: `loginRedirect` and path resolution are parameters, and vue-router calls the guard once for each navigation.
- MarkdownEscapes: the regular expression passes, inline code and `html.UnescapeString` between the modelled passes; invalid UTF-8, which the first pass replaces.
- HTTP adapters, normalisation of provider payloads, handlers, configuration, views and reports: no property of this kind.
