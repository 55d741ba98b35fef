# Verified model of the two-tier cache server

A Dafny 4.11 model of the parts of the cache server whose correctness cannot be read off a single
function: the sharded in-process cache, the two-tier cache manager with singleflight and background
fill, the byte-budget asset cache with the handlers that use it, the metrics snapshot, and the
command-line flag editor of the local load-test wrapper. `dafny verify dfyconfig.toml` checks all of it.

## How it is laid out

| file | models |
|---|---|
| `L1Shard.dfy`, `L1ShardRuns.dfy` | one shard: the object, its critical sections as functions, and what holds over every run |
| `Fnv.dfy` | the shard choice (32-bit FNV-1a, section 2 of draft-eastlake-fnv, reduced modulo 256) |
| `L1Cache.dfy`, `L1Capacity.dfy`, `L1Concurrent.dfy`, `L1History.dfy` | the cache of 256 shards, its exact capacity, and its behaviour under any number of threads, also in terms of the calls made alone |
| `Manager.dfy` | the cache manager as a transition system: both tiers, every call, flight and write in progress, and the counters |
| `ManagerProvenance.dfy`, `ManagerAge.dfy` | where every value comes from, and how old it can be |
| `ManagerSequential.dfy`, `ManagerWriteRead.dfy` | what one `Get`, `Set` or `Invalidate` does when nothing else runs, and reading back what was written |
| `ManagerDelivery.dfy`, `ManagerGets.dfy`, `ManagerEffects.dfy` | over all runs: what an origin's answer does, what every `Get` returns, and what changes the tiers |
| `ManagerFlights.dfy`, `ManagerCounts.dfy`, `ManagerErrors.dfy`, `Metrics.dfy` | singleflight, conservation of the counters, what the error counter counts, and the non-atomic snapshot |
| `ManagerCoherence.dfy`, `ManagerSettling.dfy`, `ManagerReads.dfy` | when the two tiers agree, exactly when a `Set` or `Invalidate` takes effect, and what a later `Get` returns |
| `AssetCache.dfy`, `AssetCacheRuns.dfy`, `AssetAccounting.dfy`, `AssetScan.dfy` | the byte-budget cache, exactly when its accounting is right, and the role of the empty key |
| `BinaryHandler.dfy`, `HandlerLaws.dfy`, `HandlerAccounting.dfy` | upload, serve and delete over object store, metadata index and cache; what clients see over one and two requests; how far ordinary requests put the account off |
| `Flags.dfy` | reading and writing a flag in an argument list |
| `CacheTypes.dfy`, `Sums.dfy` | shared types; totals over sequences |

Objects whose methods update fields in the Go code are classes here (`L1Shard.Shard`, `L1Cache.L1Cache`,
`AssetCache.AssetCache`, `BinaryHandler.Handler`), each method proved to compute a function of, or a relation
between, the old and the new state; the lemmas are about those. What goroutines do concurrently is a
state machine: one step is one critical section or one access to a tier, a counter or the singleflight
group, and a run is any sequence of enabled steps.

## Where the code and what is said of it differ

- `keys` is called a ring buffer. It only ever grows: it is the log of all keys inserted while absent
  (`L1ShardRuns.AmortisedEviction`). Eviction is called LRU; in runs that only store it is exactly FIFO
  (`L1ShardRuns.StoreOnlyRunsAreFifo`).
- The eviction test expects a cache of size 512 to hold about 512 entries. The floor of 64 slots per shard
  allows 16384, and that many are reachable (`L1Capacity.FloorIsReached`). The cache keeps within its
  configured size if and only if that is at least 16384 (`L1Capacity.WithinSizeIff`).
- A lazy delete can drop an entry written after the expired one was read, and does so exactly when a write
  overtakes it (`L1Concurrent.FreshLossIff`). A wrong value is never returned.
- Writing through both tiers does not keep them equal. `ManagerSettling.TakesEffectIff` gives the exact
  condition for one `Set` or `Invalidate`, decided when it starts: nothing unfinished carries another value,
  and L2 holds no other live value, because a `Get` that reads it between the two halves of the call can put
  it back. So an `Invalidate` of a key live in L2 can always be undone (`InvalidateTakesEffectIff`).
  `ManagerCoherence.TiersAgreeWhenSettled` gives a discipline for the activities on one key under which the
  tiers always agree on it once settled, whatever happens to other keys. It has to forbid more than fills
  that overlap writes: two `Set`s of one key can overtake each other between their halves, and a fill can
  start inside a `Set`.
- `OriginErrors` is not a number of origin errors: failed reads of Redis are counted in it too, and it may
  exceed `OriginCalls` (`ManagerErrors.ErrorsMayExceedCalls`).
- `curBytes` is not the number of bytes cached. `AssetCacheRuns.AccountingGap` says by how much it differs.
  Whether a `set` puts it off is decided before the call: when the entries older than the one it replaces do
  not make enough room (`AssetAccounting.AccountingExactIff`; with entries of equal age it depends on the
  iteration order of the map, and `AssetAccounting.AlwaysExactIff` covers every order). Uploads and deletions
  of two bytes already make the difference as large as one likes (`HandlerAccounting.GapIsUnbounded`).

## Assumptions

- Redis is an atomic map from keys to values with a lifetime (none when the configured one is not positive),
  which may lose entries at any time and whose operations may fail. A failed write leaves it unchanged.
- The singleflight group runs one flight per key, reports `shared` to every joiner and to a leader that had
  joiners, and drops the key from the group before the leader returns.
- The clock does not run backwards. Cached byte slices are not modified by their users.
- The origin may return any value or an error, except where a lemma takes it to be a function of the key.
- A failed call to the object store or to the metadata store leaves it unchanged, except that an upload
  reported as failed may have been stored; `BinaryHandler.MisreportedUploadAgreesIff` says when that matters.

## Model

| member | source | states |
|---|---|---|
| L1Shard.Shard.EvictOne | internal/cache/l1.go:128-138 | the loop with its modulus drops the first stored key at or after the cursor, wrapping around, moves the cursor just past it, and reports its probes |
| L1Shard.Shard.Set | internal/cache/l1.go:96-117 | one critical section: eviction only for an absent key in a full shard, one append to `keys` per absent key, entry expiring `ttl` from now |
| L1Shard.EvictFromGood | internal/cache/l1.go:128-138 | with two or more stored keys eviction never wraps: one stored key goes, the cursor strictly advances by exactly the probes made |
| L1Shard.CursorAdvancesIff | internal/cache/l1.go:130-134 | the cursor advances if and only if some stored key occurs in the queue before its last position; otherwise it returns to 0 |
| L1Shard.ApplyKeepsGood | internal/cache/l1.go:96-138 | every store and removal keeps each stored key in `keys[evictIdx..]` and the shard within its size |
| L1Shard.PutEffect | internal/cache/l1.go:96-117 | a store makes its entry visible and loses at most one other stored key, and only when the shard was full and the key new |
| L1ShardRuns.AmortisedEviction | internal/cache/l1.go:102-138 | over every run the probes of all evictions number fewer than the absent-key inserts, and `keys` is the log of those inserts |
| L1ShardRuns.ShardSimulatesQueue | internal/cache/l1.go:102-138 | every run is matched by a shard that keeps only the queue after the cursor, so the prefix never affects a result |
| L1ShardRuns.StoreOnlyRunsAreFifo | internal/cache/l1.go:96-138 | in store-only runs the stored keys are exactly the last `min(maxSize, n)` of the `n` keys inserted, in FIFO order |
| Fnv.GetShard | internal/cache/l1.go:60-67 | the hash loop computes FNV-1a, and its low byte is the 8-bit recurrence from 197 with factor 147 |
| Fnv.KnownHashes | internal/cache/l1.go:60-67 | the hash has the published values of 32-bit FNV-1a for no bytes, "a" and "foobar" |
| Fnv.OneByteApart | internal/cache/l1.go:60-67 | keys of one length that differ in exactly one byte are in different shards |
| Fnv.EvenDistribution | internal/cache/l1.go:60-67 | of the 256^n keys of n bytes every shard receives exactly 256^(n-1) |
| L1Cache.L1Cache.constructor | internal/cache/l1.go:42-57 | 256 distinct empty shards of `max(64, maxSize/256)` slots |
| L1Cache.L1Cache.Get | internal/cache/l1.go:70-93 | a sequential `Get` returns the unexpired entry of the key's own shard, and deletes an expired one |
| L1Cache.StoreIsLossyUpdate | internal/cache/l1.go:96-117 | the whole cache under `Set` is a lossy map: at most one other key of the same shard is lost |
| L1Cache.SetThenGet | internal/cache/l1.go:70-117 | a `Get` after a `Set` returns the value until its lifetime is over, and then removes the entry |
| L1Cache.L1Cache.Stats | internal/cache/l1.go:141-149 | with nothing interleaved the sum of shard sizes is the number of distinct stored keys |
| L1Cache.SizeBound | internal/cache/l1.go:42-57 | a good cache holds at most `256 * max(64, maxSize/256)` keys, which is at most `max(maxSize, 16384)` |
| L1Capacity.FloorIsReached | internal/cache/l1.go:43-46 | for every configured size under 16640 some stores leave 16384 keys cached |
| L1Capacity.CapacityIsReached | internal/cache/l1.go:42-57 | for every configured size some stores fill all `256 * max(64, maxSize/256)` slots |
| L1Capacity.CapacityIsExact | internal/cache/l1.go:42-57 | the most keys cached in any interleaving is the configured size down to a multiple of 256, or 16384 if that is less than 16384: never exceeded, and reached |
| L1Capacity.WithinSizeIff | internal/cache/l1.go:42-57 | in every interleaving the cache holds at most its configured size, if and only if that is at least 16384 |
| L1Concurrent.LossyMapUnderInterleaving | internal/cache/l1.go:70-125 | in every interleaving an entry held is the key's last write with no deletion since, a hit was current within the call and at most `ttl` old, and the size bound holds |
| L1History.LogIsTrue | internal/cache/l1.go:96-125 | the log these results speak of is the sequence of `Set`s and `Delete`s made, each with its time |
| L1History.StepEffects | internal/cache/l1.go:70-125 | a `Set` makes its entry readable until `now + ttl`, deletions make theirs absent, and no step changes another entry but by eviction from the same full shard |
| L1History.DeleteIsExact | internal/cache/l1.go:120-125 | a `Delete` among threads makes its key absent and leaves every other entry as it was |
| L1History.DeletedStaysAbsent | internal/cache/l1.go:120-125 | from a `Delete` to the next `Set` of the key, in every interleaving, the key is absent and no `Get` started since is a hit |
| L1History.SetIsSeen | internal/cache/l1.go:96-117 | from a `Set` to the next one of the key, in every interleaving, the cache holds that entry or nothing, and every `Get` started since that hits returns that value within `ttl` |
| L1History.GetFollowsItsRead | internal/cache/l1.go:70-93 | in every interleaving a `Get` hits only with what it read, unexpired when checked, and misses only if the key was absent or expired |
| L1Concurrent.GetAloneIsSequential | internal/cache/l1.go:70-93 | the steps of a `Get`, when nothing comes between them, do and return what the sequential `Get` does |
| L1Concurrent.LiveLossNeedsOvertaking | internal/cache/l1.go:82-88 | a lazy delete removes a live entry only if a write of the key overtook it |
| L1Concurrent.FreshLossIff | internal/cache/l1.go:82-88 | for every state: the entry a lazy delete removes was written after the read if and only if a write of the key overtook it, and is live if and only if that write is at most `ttl` old |
| ManagerProvenance.ValuesComeFromWrites | internal/cache/manager.go:49-133 | every value held by a tier, a flight, a pending background write or an unfinished `Set`, or returned, entered by a `Set` or an origin call for that key |
| ManagerProvenance.GetsReturnTheOrigin | internal/cache/manager.go:49-121 | if the origin is a function of the key and the key is never `Set`, every successful `Get` returns the origin's value |
| ManagerAge.BoundedAge | internal/cache/manager.go:56-65 | the very event that brought in a value served by L2 is at most `writeDelay + ttl2` old, by L1 at most `writeDelay + ttl2 + fillDelay + ttl1` |
| ManagerSequential.ServedFromL1 | internal/cache/manager.go:49-58 | every lone `Get` of a key live in L1 ends with it returned and only the hit and request counters changed |
| ManagerSequential.ServedFromL2 | internal/cache/manager.go:60-65 | every lone `Get` missing L1 and hitting L2 ends with that value returned and copied to L1 with a fresh lifetime; L2 is not written |
| ManagerSequential.ServedFromOrigin | internal/cache/manager.go:67-121 | every lone `Get` that finds the key in neither tier, or cannot read L2, ends after one origin call with its value returned and in L1, in L2 once the background write has landed (not if it is lost), a failed read counted as an error, and nobody counted as coalesced |
| ManagerSequential.FailedByOrigin | internal/cache/manager.go:67-106 | if the origin fails as well it ends with the failure returned, nothing stored, and one more error counted |
| ManagerSequential.FailedInvalidateServesAgainIff | internal/cache/manager.go:130-133 | after an `Invalidate` whose L2 half failed, a lone `Get` returns the old entry and restores it to L1 if L2 held it live, and is served by no tier otherwise |
| ManagerSequential.GetCanReturn | internal/cache/manager.go:49-74 | a lone `Get` always has a way to return |
| ManagerWriteRead.SetAlone | internal/cache/manager.go:124-127 | from every state a `Set` left alone leaves the value in L1 until `now + ttl1` and in L2 until `now + ttl2` (L2 as it was if its half fails), and no other key, call, flight or counter changed |
| ManagerWriteRead.InvalidateAlone | internal/cache/manager.go:130-133 | an `Invalidate` left alone takes the key out of both tiers (L2 as it was if its half fails), and nothing else changes |
| ManagerWriteRead.SetThenGet | internal/cache/manager.go:49-65 | after a `Set` and a delay d, a lone `Get` returns the value from L1 while d is at most `ttl1` and L1 has not lost it, else from L2 while d is at most `ttl2` or entries there do not expire; the origin is not called |
| ManagerWriteRead.SetThenLateGet | internal/cache/manager.go:49-75 | when both lifetimes are over the origin is called, once |
| ManagerWriteRead.InvalidateThenGet | internal/cache/manager.go:130-133 | after an `Invalidate` and any delay a lone `Get` is served by no tier and calls the origin once |
| ManagerDelivery.AnswerIsDelivered | internal/cache/manager.go:99-121 | in every run, when the origin answers a flight with v its background write of v is spawned at once, whoever has joined, and changes only by landing or getting lost; every call out of the flight returns v |
| ManagerDelivery.ReturnsThroughFlight | internal/cache/manager.go:77-121 | every call out of a flight returns the origin's answer to it, put into L1 before, or fails because the origin did |
| ManagerDelivery.OneAnswerPerFlight | internal/cache/manager.go:83-85 | a flight gets one answer, or one failure |
| ManagerGets.GetFollowsItsReads | internal/cache/manager.go:49-75 | in every run a `Get` returns from L1 only what it read there and was unexpired when checked, from L2 only after a miss in L1 and what was live when read, and goes to the origin only after missing both |
| ManagerEffects.HistoryIsTrue | internal/cache/manager.go:99-133 | the clock, the events and the interceptor's requests these results speak of are what the steps of the run say |
| ManagerEffects.L1Effects | internal/cache/manager.go:49-133 | in every run, what each step does to L1's entry for a key: a `Set`'s value, the origin's answer to the flight, or what the call read from L2, each until `now + ttl1`; a lazy delete only after finding the entry too old; nothing otherwise |
| ManagerEffects.L2Effects | internal/cache/manager.go:108-133 | in every run, what each step does to L2's entry: the origin's answer to the flight or the value the `Set` was begun with, each until `now + ttl2`, or its removal; no `Get` writes L2 |
| ManagerFlights.OneFlightPerKey | internal/cache/manager.go:83-85 | with singleflight on, at most one unfinished fetch per key in every reachable state |
| ManagerFlights.OneResultPerFlight | internal/cache/manager.go:83-95 | everyone who took part in a flight returns the same value or failure, and of all calls exactly one, for the same key, leads it |
| ManagerCounts.MissesAreConserved | internal/cache/manager.go:56-65 | at every step L1Misses = L2Hits + L2Misses + the calls between the two counts |
| ManagerCounts.OriginCallsSaved | internal/cache/manager.go:77-100 | L2Misses = flights + joiners + calls yet to enter the group: each joiner saves one origin call |
| ManagerCounts.QuiescentCounts | internal/cache/manager.go:83-100 | with no `Get` running, CoalescedCalls is joiners plus leader over the joined flights, OriginCalls the number of flights, and every request a hit in L1, a hit in L2 or an L2 miss |
| ManagerErrors.ErrorsAreCounted | internal/cache/manager.go:99-106 | at every step OriginErrors is the failed reads of L2 so far plus the failed origin calls, which number at most OriginCalls |
| ManagerErrors.ErrorsMayExceedCalls | internal/cache/l2.go:77-84 | failed reads of Redis are counted too, so OriginErrors exceeds OriginCalls by any n in some run |
| Metrics.HitsAcrossLoads | internal/metrics/metrics.go:43-52 | hit counters loaded earlier never exceed the request counter loaded later plus the `Get`s then running |
| Metrics.TakeSnapshot | internal/metrics/metrics.go:42-77 | the snapshot's fields and rates for loads at different moments; the overall hit rate is at most 1 if no `Get` runs at the last counter load; the average latency covers at least the requests reported, and exactly those if none is being recorded meanwhile |
| ManagerCoherence.TiersAgreeWhenSettled | internal/cache/manager.go:99-133 | in every run in which the activities on a key keep the discipline, whatever other keys do, with no `Set`, `Invalidate` or fetch of it unfinished, each tier holds its current value or nothing |
| ManagerCoherence.InvalidatedStaysAbsent | internal/cache/manager.go:130-133 | in the same runs, from the end of an `Invalidate` to the next `Set` or origin return neither tier holds the key |
| ManagerSettling.TakesEffectIff | internal/cache/manager.go:49-133 | for every state: from its completion to the next write or fetch of the key, in every interleaving, a `Set` or `Invalidate` is in effect in both tiers if and only if, when it starts, nothing unfinished carries another value and L2 holds no other live value |
| ManagerSettling.InvalidateTakesEffectIff | internal/cache/manager.go:61-65 | for an `Invalidate`: if and only if nothing unfinished carries a value and the key is not live in L2 |
| ManagerSettling.TakesEffectUndisturbedIff | internal/cache/manager.go:108-133 | over the interleavings in which no `Get` reads another value from L2 inside the call, if and only if nothing unfinished carries another value |
| ManagerSettling.FillInsideSet | internal/cache/manager.go:61-65 | from every state inside a `Set` or `Invalidate` a `Get` that reads another value from L2 can put it back after the call |
| ManagerSettling.FailedSetDisagreesIff | internal/cache/manager.go:124-127 | a `Set` whose L2 half fails leaves two live different values for the key if and only if L2 held another live value and entries of L1 live at all |
| ManagerReads.LaterGetsSeeTheWrite | internal/cache/manager.go:49-65 | in every run, if a `Set` or `Invalidate` starts with no unfinished rival and either no other value live in L2 or none read from it inside the call, each `Get` started after it and served by a tier before the next write or fetch returns the value set, and after an `Invalidate` there is none |
| ManagerReads.DisciplinedGetsSeeTheWrite | internal/cache/manager.go:49-65 | the same in runs in which the activities on the key keep the discipline, with no other write or fetch of it as the only condition |
| AssetCache.AssetCache.FindOldest | internal/binaryhandler/handler.go:78-85 | in any iteration order the scan finds an entry with the least `cachedAt`, given that the empty key is absent |
| AssetCache.AssetCache.Set | internal/binaryhandler/handler.go:66-94 | the loop ends; victims are oldest entries taken one by one while over budget; the asset is stored; `curBytes` is what the code subtracts and adds |
| AssetCache.AssetCache.Remove | internal/binaryhandler/handler.go:96-103 | the entry and its size go, or nothing changes |
| AssetCacheRuns.SetRespectsBudget | internal/binaryhandler/handler.go:75-93 | after a `set` the account is within budget or only the new asset is left; no victim is younger than a survivor; the last victim was needed |
| AssetCacheRuns.AccountingGap | internal/binaryhandler/handler.go:66-103 | over every run `curBytes` is the bytes held minus exactly the sizes evicted by the `set` replacing them |
| AssetAccounting.VictimsAreOrders | internal/binaryhandler/handler.go:77-90 | without the empty key, the victim sequences are exactly those of the eviction loop over some orders of map iteration |
| AssetAccounting.EvictedInSomeOrderIff | internal/binaryhandler/handler.go:77-90 | for every pre-state: the loop evicts an entry in some iteration orders if and only if the strictly older entries do not make enough room |
| AssetAccounting.EvictedInEveryOrderIff | internal/binaryhandler/handler.go:77-90 | in all iteration orders if and only if the entries no younger do not make enough room |
| AssetAccounting.AccountingBounds | internal/binaryhandler/handler.go:71-90 | a run keeps the account exact if no call finds, before it starts, that it may subtract twice, and only if none finds that it must |
| AssetAccounting.AccountingExactIff | internal/binaryhandler/handler.go:71-90 | where ages do not tie, the account is exact if and only if no call meets that condition on its pre-state |
| AssetAccounting.AlwaysExactIff | internal/binaryhandler/handler.go:71-90 | for any requests, the account ends exact in every iteration order if and only if in none a call meets the condition |
| AssetAccounting.RunsAreOrders | internal/binaryhandler/handler.go:71-90 | the runs spoken of are runs of the loop in some iteration orders, as long as the empty key is never set |
| HandlerAccounting.GapIsUnbounded | internal/binaryhandler/handler.go:150-339 | for every positive budget and every n, uploads of at most two bytes and deletions, none failing, leave exactly n bytes unaccounted for |
| AssetScan.AlwaysFindsVictimIff | internal/binaryhandler/handler.go:78-90 | a pass over a non-empty cache finds a victim in every iteration order if and only if the empty key is not strictly the oldest |
| AssetScan.LoopCanEndIff | internal/binaryhandler/handler.go:77-90 | with the empty key cached the loop can end if and only if evicting all other entries makes enough room; no pass ever evicts the empty key |
| AssetScan.OnlyEmptyKeyNeverEvicted | internal/binaryhandler/handler.go:77-90 | a cache left with only the empty key yields no victim in any order, and with no room the loop cannot end |
| BinaryHandler.Handler.UploadAsset | internal/binaryhandler/handler.go:150-220 | status, store, metadata, index and cache after an upload, for every outcome of the backends |
| BinaryHandler.Handler.ServeAsset | internal/binaryhandler/handler.go:223-279 | a hit from the cache, or the stored object which is then cached, or the error status |
| BinaryHandler.Handler.DeleteAsset | internal/binaryhandler/handler.go:306-339 | the cache entry always goes, each backend's entry unless that backend fails |
| HandlerLaws.StatusIff | internal/binaryhandler/handler.go:150-339 | each of the statuses 503, 400, 502, 404 and 500, exactly when it is sent |
| HandlerLaws.RefusedChangesNothing | internal/binaryhandler/handler.go:150-339 | a request answered with an error changes nothing, but that an upload reported as failed may have been stored |
| HandlerLaws.UploadLeaves | internal/binaryhandler/handler.go:162-212 | an accepted upload stores and caches its first 104857600 bytes under the type named or detected, aged now; metadata and index each follow their own call; other names stay, or are evicted for want of room |
| HandlerLaws.ServeLeaves | internal/binaryhandler/handler.go:235-279 | a hit changes nothing; a miss caches the stored object, aged now, and other entries stay or are evicted for want of room |
| HandlerLaws.DeleteLeaves | internal/binaryhandler/handler.go:306-339 | after an accepted deletion the name is not cached, and object, metadata and index entry are gone exactly if their own call succeeded |
| HandlerLaws.ServeThenServe | internal/binaryhandler/handler.go:235-279 | what was served once is served again from the cache, with the same body, length and type, whatever the object store does, and nothing changes |
| HandlerLaws.UploadedIsServed | internal/binaryhandler/handler.go:150-243 | an upload is served back whole up to 104857600 bytes, with the detected type exactly for the two that say nothing |
| HandlerLaws.DeletedIsNoHit | internal/binaryhandler/handler.go:306-339 | after an accepted deletion the next serve is no hit, and 404 unless the object was not removed |
| BinaryHandler.ServesWhatIsStored | internal/binaryhandler/handler.go:235-278 | in every run without a misreported upload of its name, a served asset is the stored object, as from a server without a cache |
| BinaryHandler.UploadThenServe | internal/binaryhandler/handler.go:150-243 | what was uploaded is served back from the cache, bytes, length and content type |
| BinaryHandler.DeleteThenServe | internal/binaryhandler/handler.go:306-339 | what was deleted is not served, from the cache or the store |
| BinaryHandler.MisreportedUploadAgreesIff | internal/binaryhandler/handler.go:179-188 | an upload stored but reported as failed keeps cache and store in agreement exactly when no other object was cached under the name |
| BinaryHandler.CleanRunsStayIndexed | internal/binaryhandler/handler.go:194-204 | while no backend fails, index and metadata describe exactly the stored objects |
| Flags.GetFlagValue | scripts/asset_loadtest_local.go:69-84 | the loop returns the value at the first argument that gives the flag one |
| Flags.UpsertFlag | scripts/asset_loadtest_local.go:99-120 | the loop overwrites that argument's value in place, or returns a copy with one argument appended |
| Flags.HasFlag | scripts/asset_loadtest_local.go:58-67 | whether some argument names the flag |
| Flags.PutGetIff | scripts/asset_loadtest_local.go:99-120 | reading back returns the value written if and only if the flag has a value or the list does not end in the bare flag |
| Flags.PutPutIff | scripts/asset_loadtest_local.go:99-120 | a second write overrides the first under exactly the same condition |
| Flags.GetPut | scripts/asset_loadtest_local.go:69-120 | writing back the value read changes nothing |
| Flags.UpsertIsLocal | scripts/asset_loadtest_local.go:99-120 | after a write the flag is present, and one argument at most differs or exactly one is appended |
| Flags.AbsentReadsEmpty | scripts/asset_loadtest_local.go:69-84 | a list that does not name the flag, or only ends in it, reads as the empty string |
| Flags.NamesOne | scripts/asset_loadtest_local.go:58-67 | an argument names at most one plain flag |
| Flags.OtherFlagStays | scripts/asset_loadtest_local.go:99-120 | writing one flag leaves the presence of another unchanged, and its reading unless the position written is where it takes its value from, provided neither what is overwritten nor what is written names it |
| Flags.PlainFlagsStayApart | scripts/asset_loadtest_local.go:99-120 | for plain, distinct names that proviso holds whenever the flag is given with `=` or is absent |

## Left out

- HTTP and gRPC routing, JSON, middleware and load-test drivers: thin wrappers. The gRPC interceptor is modelled only as an extra source of request counts.
- Redis and MinIO clients, pools, replica reads and several server processes: see Assumptions.
- `L2Cache.MGet` and `MSet`: no caller.
- Floating point: hit rates and the average latency are real numbers, without rounding.
- AssetCache.AssetCache.Set: on a cache that already holds the empty key it is modelled only where there is room, since otherwise the loop need not end (`AssetScan.LoopCanEndIff`); the handlers never store that key.
- 64-bit widths of counters and of `curBytes`: unbounded integers.
- Panics, cancelled contexts and timeouts: an origin call ends in a value or an error, a background write lands or is lost.
- `config.Load`, `detectContentType`, `formatBytes`: lookups; the content type detected is a parameter of the handler.
- Spare capacity of Go slices: an append in `upsertFlag` is modelled as a copy.
- The handlers are sequential: uploads, serves and deletes of one process do not overlap.
- The manager's L1 is the lossy map of `L1Cache.StoreIsLossyUpdate` and `L1Concurrent.LossyMapUnderInterleaving`, not the 256 shards themselves: an eviction is a loss that may happen at any time.
