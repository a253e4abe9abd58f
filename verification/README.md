# Spirit, modelled and proved in Dafny

Spirit shares remote memory between applications: a resource allocator divides local cache and
network bandwidth among them, and a kernel block driver moves pages over RDMA. This project models
the logic of both and proves what it keeps over all inputs, runs and interleavings.
`dafny verify dfyconfig.toml` checks all of it.

Shares, prices, rates and utilities are `real`; Python's `int()` is truncation toward zero; unsigned
C arithmetic is written out where it can wrap.

## What is modelled

**The auction.** `PriceSearch` and `Auction` model the Spirit allocator: a price bracket on the line
cache + bandwidth = 1, the demands of all applications at its middle price, the fallback to the last
allocation, and rounds over many VMs. Demands are an arbitrary oracle, so the results hold whatever
the applications do. `Sweep` models the per-application search, which tries one bandwidth per cache
step; `SweepTheorems` proves that it still refines a search of the whole grid, up to its own
threshold. That rests on the performance model (`Estimator`) being monotone. `EstimatorMonotone`
proves this for bandwidth always, and for cache under a condition that is shown to be exact.
`SweepOnEstimates` puts the two together.

**The block driver.** `BlockDriver` is a transition system: submitters, one request worker, one ack
worker and the RNIC interleave at every atomic access. Addresses are reused after they are freed, and
everything the C code would report as an error is recorded as a fault. `BlockDriverSafety` proves an
inductive invariant and from it the lifecycle theorems. `BlockDriverRuns` shows that two surprising
states do occur, `BlockDriverStall` says when the driver can still post, and `BlockDriverOrder` compares
the state with a journal kept from the steps of a run alone, to say in which order requests are served.
`BlockSubmit` models how a request's operations are filled in.

**The shared rings.** `Rings` models the task ring and the byte ring as classes over arrays and proves
that they refine queues. `RingProtocol` splits every operation into its accesses to shared memory and
proves that a producer and a consumer stay paired in every interleaving.

**The trading allocators.** `TradeShares` holds what both have in common. `FijTrade` proves that a
round is an estimated Pareto step. `IncTrade` models static and dynamic rounds of the harvesting
allocator and proves conservation. `IncTradeRuns` is about whole runs of it from the first static
round on.

**Measurements and traces.** `MonitorStore` models the measurement store, `TraceLoader` the loader of
cache traces.

## What the proofs found

- The estimate is not always monotone in cache. It is exactly when the usage is at most 0.8 of the
  bandwidth allocation, or when the target bandwidth is within the allocation and usage times target
  is at most the squared allocation times 2 + 100 times the current miss rate. This holds for the
  slowdown (`MonotoneExactlyWhenCacheSafe`), for the performance
  (`PerformanceMonotoneExactlyWhenCacheSafe`) and for the estimate over all measured curves through an
  operating point (`EstimateRisesExactlyWhenCacheSafe`). Where the condition fails some curve makes the
  estimate fall (`EstimateFallsSomewhere`); `EstimateCanFall` is an application that uses nearly all its
  bandwidth and whose current 100 MB of cache are estimated better than 101 MB.
- In `IncrementalTradeAllocator` a comment says that a revocation gives its unit back to the user. The
  code adds it to `last_allocation`, which the same round then overwrites with a copy made earlier, so
  the user gets nothing back (`RevocationReturnsNothing`). What the pool loses is not the harvested
  unit either: after a harvest the decision already names the other resource, and that one is revoked
  (`HarvestNamesOpposite`, `RevocationTakesOpposite`). If the pool has some of it, a unit is gone; a run
  of five rounds from the first static round does this (`UnitCanBeLost`).
- A static round of that allocator hands out everything again but leaves the pool as it is. A VM's
  shares plus pool then stay within one exactly when the pool is empty (`AllocateStatic`,
  `StaticRoundConservesIff`), and one harvest before it is enough to exceed one
  (`StaticRoundCanExceed`).
- The baseline is recorded again in every call that still finds the static shares, from the very
  measurements that the round then reads. So the first dynamic round compares every application with
  itself (`ComparedWithItself`). Whatever was measured, it takes a unit of bandwidth from the first
  application, or from the first one that made no progress at all, because a ratio to zero counts as
  the best (`FirstRoundIsBlind`, `FirstRoundIgnoresPerformance`).
- A VM all of whose applications are marked as adjusted last is never adjusted again over any run
  (`MarkedRun`). As a round marks at most one, this is about VMs with a single application. One that
  starts as the only one of its VM is adjusted at most once, by losing a unit of bandwidth
  (`LoneRunFreezes`). Some run does adjust it exactly when the limits allow a unit more than the whole
  bandwidth and a unit less (`LoneAdjustableIff`). With the default maximum, the total, it never is.
- The block driver's hash table can hold two entries for one request and its in-flight counter can be
  -1. Neither does harm: lookups agree, and the posting loop never reads a negative counter
  (`TagCanBeInTableTwice`, `CounterCanBeNegative`, `LookupsAgree`, `InFlightBounded`).
- A failed completion keeps its place on the queue for good, and a request with a failed or refused
  segment keeps its tag for good. From a reachable state the driver can post again exactly while fewer
  completions have failed than the queue holds and a segment is left or some tag is not kept in this
  way (`PostsAgainIff`). Every queue size of the driver can be used up (`StallIsReachable`).
- The id zero counts as no user in `FijTradeAllocator`. Where at least two applications are eligible and
  have room, a round trades exactly when one prefers cache and one bandwidth, for all estimates, if and
  only if none of them has the id zero (`TradesExactlyWhenWanted`, `TradesAsWantedIff`). It can even stop
  two others from trading (`ZeroStopsTrading`). The re-examination of `IncrementalTradeAllocator` passes
  over it in the same way (`Recheck`).
- Built with overflow checks the trace loader panics exactly when a request lies further back than the
  compressed time so far, which an ordered trace never does (`Parse`, `OrderedTraceLoads`,
  `BackwardTraceUnderflows`). Built without them it always loads the trace: the wrapped difference
  exceeds the idle limit, and the request is placed one idle limit later (`ParseWrapping`,
  `WrappedAgrees`).

## Model

| member | source | states |
|---|---|---|
| BlockDriverSafety.StepKeepsInv | remote_mem/drivers/mind_ram/mind_ram_rdma_worker.c:110-330 | Every atomic step of submitter, request worker, ack worker and RNIC keeps the protocol invariant: linked entries are live, tags are unique among entries not being deleted, pending counts equal unacknowledged operations, every unacknowledged operation has a live work request or was refused, and the counter matches what is in flight. |
| BlockDriverSafety.NoFaultIsReachable | remote_mem/drivers/mind_ram/mind_ram_rdma_worker.c:110-330 | In every interleaving no entry is touched after it is freed, no lookup mismatches, no operation is acknowledged twice, the fifo never overflows, no request is ended twice and the posting loop never sees a count mismatch. |
| BlockDriverSafety.EndedOnceAndComplete | remote_mem/drivers/mind_ram/mind_ram_rdma_worker.c:135-159 | Each submission is ended at most once, and only after the RNIC completed every one of its segments. |
| BlockDriverOrder.ServedInOrder | remote_mem/drivers/mind_ram/mind_ram_rdma_worker.c:345-360 | In every run the fifo holds exactly the published requests that were not fetched, in the order of their publication, and a request just fetched is the next of them: none is served before one published earlier. |
| BlockDriverOrder.PostedInOrder | remote_mem/drivers/mind_ram/mind_ram_rdma_worker.c:258-325 | The segment about to be posted is the next one of the request fetched last. |
| BlockDriverOrder.EndedWereCompleted | remote_mem/drivers/mind_ram/mind_ram_rdma_worker.c:135-159 | A request is ended only after each segment it was submitted with was carried by a work request that the RNIC completed without error, all three read off the steps of the run. |
| BlockDriverSafety.LookupsAgree | remote_mem/drivers/mind_ram/mind_ram_rdma_worker.c:198-203 | Every table lookup by the ack worker returns exactly the entry its completion carries, although requests are ended before their entries leave the table. |
| BlockDriverSafety.LookupAgrees | remote_mem/drivers/mind_ram/mind_ram_rdma_worker.c:65-77 | Walking the hash chain from the newest entry finds the carried entry in every state of the invariant. |
| BlockDriverSafety.InFlightBounded | remote_mem/drivers/mind_ram/mind_ram_rdma_worker.c:258-267 | Posted and not yet polled work requests never exceed the queue size, the counter stays between -1 and the queue size and is never negative where the posting loop reads it, and the fifo holds at most 256 of its 1024 slots. |
| BlockDriverSafety.FifoHasRoom | remote_mem/drivers/mind_ram/mind_ram_drv_rdma.c:314-324 | The fifo holds at most as many entries as there are tags, so inserting never fails. |
| BlockDriverSafety.StepIsSafe | remote_mem/drivers/mind_ram/mind_ram_rdma_worker.c:187-244 | No step enabled in a state of the invariant raises a fault. |
| BlockDriverSafety.QuiescentMeansDone | remote_mem/drivers/mind_ram/mind_ram_rdma_worker.c:135-159 | When nothing is queued, served or in flight and no post was refused, every submission has been ended, every entry is freed and the counter is zero. |
| BlockDriverRuns.CounterCanBeNegative | remote_mem/drivers/mind_ram/mind_ram_rdma_ftns.c:113-119 | Incrementing after the post lets the counter reach -1 in a real run. |
| BlockDriverRuns.TagCanBeInTableTwice | remote_mem/drivers/mind_ram/mind_ram_rdma_worker.c:149-158 | A run in which an ended entry and its successor for the same request are both linked, and a lookup would return the newer one. |
| BlockDriverStall.StalledStays | remote_mem/drivers/mind_ram/mind_ram_rdma_ftns.c:193-199 | Once as many completions have failed as the queue holds, every step keeps it so. |
| BlockDriverStall.UnpostableStays | remote_mem/drivers/mind_ram/mind_ram_rdma_worker.c:110-159 | Once nothing is left to post and every tag has an abandoned segment, every step keeps it so: no request ends and none can be submitted. |
| BlockDriverStall.BlockedNeverPosts | remote_mem/drivers/mind_ram/mind_ram_rdma_worker.c:258-267 | In either case no run ever comes to a post again. |
| BlockDriverStall.Drain | remote_mem/drivers/mind_ram/mind_ram_rdma_worker.c:163-244 | From every state of the invariant a run acknowledges everything that can be acknowledged, with no further failure, no segment lost and no tag newly kept. |
| BlockDriverStall.PostsAgainIff | remote_mem/drivers/mind_ram/mind_ram_rdma_worker.c:258-267 | From a reachable state some run comes to a post if and only if fewer completions have failed than the queue holds and a segment is left or not every tag is kept; otherwise none ever does. |
| BlockDriverStall.StallIsReachable | remote_mem/drivers/mind_ram/mind_ram_rdma_ftns.c:193-199 | For every queue size below 256 a reachable state has segments left and never posts again. |
| BlockSubmit.RequestEntry.Fill | remote_mem/drivers/mind_ram/mind_ram_drv_rdma.c:281-314 | The segment loop succeeds exactly when the request fits the array and the device. Then operation i transfers segment i's buffer and length, from where the one before ended; all lie on the device, the rest of the array is blank and the pending count is the number of segments. |
| BlockSubmit.OperationsTile | remote_mem/drivers/mind_ram/mind_ram_drv_rdma.c:294-301 | The operations name the segments' buffers and tile the requested byte range without gap or overlap. |
| Estimator.EstimateMissRate | res_allocation/estimators/runtime_estimator.py:88-124 | On sizes at least a millionth apart, the rate at a fraction of the way between two neighbouring sizes is that fraction of the way between their rates; the first and last segment are extended. |
| Estimator.RateInterpolates | res_allocation/estimators/runtime_estimator.py:105-121 | The same for every segment and fraction. |
| Estimator.MeasuredRates | res_allocation/estimators/runtime_estimator.py:105-121 | At every measured size the rate is the measured one. |
| Estimator.SlowDownIsRatio | res_allocation/estimators/runtime_estimator.py:68-86 | The slowdown is the ratio of 1 + 100 times the rate at the target and now, each rate weighed by how far the estimated bandwidth exceeds what there is; the minimum in that estimate never matters. |
| Estimator.StayingIsNeutral | res_allocation/estimators/runtime_estimator.py:68-86 | Staying at the current rate and allocation has the slowdown one. |
| Estimator.EstimateHereIsOne | res_allocation/estimators/runtime_estimator.py:126-164 | At its current allocation an application is estimated at one. |
| EstimatorMonotone.SlowDownMonotoneInBandwidth | res_allocation/estimators/runtime_estimator.py:68-86 | For a fixed target miss rate the slowdown never grows with target bandwidth, also across the switch between the two formulas. |
| EstimatorMonotone.SlowDownMonotoneInMissRate | res_allocation/estimators/runtime_estimator.py:68-86 | Under the condition the slowdown never falls as the target miss rate grows. |
| EstimatorMonotone.MonotoneExactlyWhenCacheSafe | res_allocation/estimators/runtime_estimator.py:76-86 | The slowdown is monotone in the target miss rate on [0, 1] if and only if the usage is unsaturated or usage and target are small against the allocation. |
| EstimatorMonotone.WithinAllocationIsCacheSafe | res_allocation/estimators/runtime_estimator.py:73-84 | Usage and target within the current allocation meet the condition. |
| EstimatorMonotone.MissRateFalls | res_allocation/estimators/runtime_estimator.py:105-121 | On a falling curve a larger cache never has a larger rate, through interpolation and extrapolation. |
| EstimatorMonotone.MissRateInRange | res_allocation/estimators/runtime_estimator.py:112-121 | Inside the measured range the rate stays between the measured ones. |
| EstimatorMonotone.EstimationMonotoneInBandwidth | res_allocation/estimators/runtime_estimator.py:126-164 | The estimate never falls with bandwidth, and whether there is one does not depend on it. |
| EstimatorMonotone.EstimationMonotoneInCache | res_allocation/estimators/runtime_estimator.py:150-164 | For an application that meets the condition the estimate never falls with cache, through all clamps. |
| EstimatorMonotone.PerformanceMonotoneExactlyWhenCacheSafe | res_allocation/estimators/runtime_estimator.py:68-86 | The estimated performance is monotone in the target miss rate on [0, 1] if and only if the condition holds. |
| EstimatorMonotone.EstimateRisesExactlyWhenCacheSafe | res_allocation/estimators/runtime_estimator.py:126-164 | At an operating point whose rate and saturation rate are not below the floor of rates, the estimate rises with cache on every measured curve through it if and only if the condition holds. |
| EstimatorMonotone.EstimateFallsSomewhere | res_allocation/estimators/runtime_estimator.py:126-164 | At every such point where the condition fails there is a measured curve on which a larger cache has a smaller estimate. |
| EstimatorMonotone.EstimateCanFall | res_allocation/estimators/runtime_estimator.py:126-164 | An application using 1000 of its 1024 Mbps, estimated for 2 Gbps at 81/41 with its current 100 MB and at 41/21, which is less, with 101 MB. |
| EstimatorMonotone.EstimationMonotone | res_allocation/estimators/runtime_estimator.py:126-164 | Within the measured range and the current allocation the estimate never falls in either resource. |
| Sweep.CheckResourceLimits | res_allocation/allocators/ptas_algorithm.py:42-87 | True exactly within the margined limits; a significant violation sets exactly the violated flags, those of the cache first. |
| Sweep.CheckColumn | res_allocation/allocators/ptas_algorithm.py:433-479 | A column's offer is considered exactly when both limit checks and the budget pass. A lower-limit flag is set exactly when an offer that passes margin and budget and would improve is below that limit, cache first; upper-limit flags are never set. |
| Sweep.Record | res_allocation/allocators/ptas_algorithm.py:481-524 | Keeps the first of the best offers and the first of those nearest to the last allocation, and reports an improvement. |
| Sweep.SweepColumns | res_allocation/allocators/ptas_algorithm.py:404-544 | The loop ends at the first column that is too expensive or follows an improvement after a limit was hit, or past the grid. A limit is reported exactly if an examined column hit it against the best recorded before. The result is the nearest offer exactly if the best is not more than 1.005 times better. |
| SweepTheorems.OffersFitBudget | res_allocation/allocators/ptas_algorithm.py:418-460 | Every offer costs at most the margined budget plus one millionth, so the out-of-budget branch is dead. |
| SweepTheorems.ClipOnlyLowers | res_allocation/allocators/ptas_algorithm.py:89-103 | Clipping never raises a share and changes none that is within its limit. |
| SweepTheorems.ClipReachesLimit | res_allocation/allocators/ptas_algorithm.py:89-103 | What exceeds a limit is clipped to just that limit. |
| SweepTheorems.MaxBwIsLargest | res_allocation/allocators/ptas_algorithm.py:421-431 | The one bandwidth tried in a column is the largest affordable one on the grid. |
| SweepTheorems.OfferDominatesColumn | res_allocation/allocators/ptas_algorithm.py:421-470 | The offer of a column that passes the margin check is considered and scores at least as much as every affordable in-limit pair of the column. |
| SweepTheorems.NothingBeyondBudget | res_allocation/allocators/ptas_algorithm.py:418-419 | Nothing is affordable from the first unaffordable column on. |
| SweepTheorems.SweepRefinesGridSearch | res_allocation/allocators/ptas_algorithm.py:411-544 | Unless left early, the reported utility is at least 1/1.005 of the score of every affordable in-limit grid pair in every searched column that passes the margin check. |
| SweepTheorems.RefinementApplies | res_allocation/allocators/ptas_algorithm.py:411-544 | A query and a result of the sweep that meet all premises of the refinement. |
| SweepTheorems.ReportedIsAttained | res_allocation/allocators/ptas_algorithm.py:507-544 | A positive reported utility is attained by the returned bundle, if the seed's is. |
| SweepTheorems.SkippedMeansExcess | res_allocation/allocators/ptas_algorithm.py:436-445 | A column with an eligible pair is skipped only for excess bandwidth, by more than the margin. |
| SweepTheorems.NextColumnAffordable | res_allocation/allocators/ptas_algorithm.py:436-445 | Then the same bandwidth is affordable one cache step up. |
| SweepTheorems.SkippedColumnsAreDominated | res_allocation/allocators/ptas_algorithm.py:436-445 | Every eligible pair is matched, at the same bandwidth, by one whose column passes the margin check or that ends its row. |
| SweepOnEstimates.EstimateIsMonotoneInBw | res_allocation/allocators/ptas_algorithm.py:461-466 | The estimator as utility meets what the sweep's shortcut needs. |
| SweepOnEstimates.RowRisesOnEstimates | res_allocation/allocators/ptas_algorithm.py:461-466 | Along a grid row the estimate is available and never falls. |
| SweepOnEstimates.SweepIsSoundOnEstimates | res_allocation/allocators/ptas_algorithm.py:411-544 | The sweep on the performance model: every eligible grid pair is no better than the reported utility up to 1.005, or matched by the last of its row. |
| PriceSearch.BracketStaysOnLine | res_allocation/allocators/spirit_allocator.py:261-276 | Whatever the demands, left, middle and right price stay on cache + bandwidth = 1 with 0 <= right < middle < left <= 1. |
| PriceSearch.BracketShrinks | res_allocation/allocators/spirit_allocator.py:336-378 | A non-converged evaluation shrinks the bracket to exactly 1/2, or 7/8 after a limit. |
| PriceSearch.PricesFollowDemand | res_allocation/allocators/spirit_allocator.py:336-378 | The price of an over-demanded resource rises; under a limit the other resource's price rises exactly when that one is over-demanded; prices rest exactly on convergence. One end of the bracket stays. |
| PriceSearch.WidthBound | res_allocation/allocators/spirit_allocator.py:336-378 | After n non-converged evaluations the width is at most (7/8)^n, and exactly 2^-n without limits. |
| PriceSearch.MinimalPriceExitIsDead | res_allocation/allocators/spirit_allocator.py:381-391 | The exit for negligible prices is never taken. |
| PriceSearch.ClearingPriceStaysBracketed | res_allocation/allocators/spirit_allocator.py:363-374 | For demand that moves against prices no step discards a clearing price. |
| PriceSearch.ConvergesOnWideClearing | res_allocation/allocators/spirit_allocator.py:363-378 | If two clearing prices are more than 2^-n apart, one of the first n evaluations converges. |
| PriceSearch.StopsConverged | res_allocation/allocators/spirit_allocator.py:375-393 | So the loop then ends by convergence before its iteration limit. |
| PriceSearch.EqualWeightsSumToOne | res_allocation/allocators/spirit_allocator.py:166-171 | The weights of a VM's applications are one together. |
| PriceSearch.TotalCost | res_allocation/allocators/spirit_allocator.py:433-437 | Spending within each weight adds up to spending within the total weight. |
| PriceSearch.AtMostOneOverDemanded | res_allocation/allocators/spirit_allocator.py:363-374 | If nobody spends more than its weight, cache and bandwidth are not over-demanded together. |
| PriceSearch.OrderLosesNothing | res_allocation/allocators/spirit_allocator.py:363-374 | Testing the two over-demands in the other order moves the bracket the same way. |
| PriceSearch.SweepSpendsAtMostWeight | res_allocation/allocators/ptas_algorithm.py:453-460 | The sweep returns its seed or a bundle that costs at most the weight. |
| Auction.Search | res_allocation/allocators/spirit_allocator.py:279-427 | The loop ends with the first evaluation that converges or, from the iteration limit on, fits, or when the retries are used up, with the bracket, demands and verdict of that evaluation. |
| Auction.FirstStopIsFirst | res_allocation/allocators/spirit_allocator.py:375-427 | That evaluation settles the search and none before it does. |
| Auction.OutcomeFits | res_allocation/allocators/spirit_allocator.py:393-427 | If every application holds its demand of a fitting last evaluation, or else its previous share, the VM fits. |
| Auction.SpiritAllocator.Allocate | res_allocation/allocators/spirit_allocator.py:375-431 | Returns the demands of the last evaluation if they fit and the whole last allocation otherwise, and counts the conflicts in a row. |
| Auction.EqualSharesFit | res_allocation/allocators/spirit_allocator.py:131-144 | Equal shares fit and use the VM exactly. |
| Auction.SpiritAllocator.AllocateStatic | res_allocation/allocators/spirit_allocator.py:118-148 | Equal shares on every VM; what is deployed is share times scale, truncated. |
| Auction.ProcessedNext | res_allocation/allocators/spirit_allocator.py:192-198 | Storing one VM's result changes that VM's shares to its outcome and no other VM's, also when the result is the whole last allocation. |
| Auction.SpiritAllocator.AllocateDynamic | res_allocation/allocators/spirit_allocator.py:157-222 | On every VM whose search ended with a fit each application holds its own demand of the last evaluation, on every other one its previous share; every VM fits, and every deployed integer is share times scale, truncated. |
| Auction.DeployRoundsDown | res_allocation/allocators/spirit_allocator.py:202-209 | What is deployed is the share of the resource, less a fraction of a unit. |
| Auction.DeployedAtMostShares | res_allocation/allocators/spirit_allocator.py:202-209 | Truncated integers add up to at most the shares times the scale. |
| Auction.SpiritAllocator.Start | res_allocation/allocators/allocator_base.py:51-83 | In any sequence of rounds each leaves equal shares or the outcomes of its searches on what the round before left, and deploys them; every VM's shares and deployed integers stay within its resources up to the precision. |
| Rings.FaultQueue.Push | remote_mem/drivers/mind_ram/mind_ram_drv.h:240-251 | Appends to the queue, refused exactly at QUEUE_SIZE - 1 tasks. |
| Rings.FaultQueue.Pop | remote_mem/drivers/mind_ram/mind_ram_drv.h:255-283 | Removes the oldest task, nothing exactly when empty; the already-processed branch is dead. |
| Rings.CountSpec | remote_mem/drivers/mind_ram/mind_ram_drv.h:220-228 | Full means QUEUE_SIZE - 1 tasks and head equal to tail means none. |
| Rings.FullIff | remote_mem/drivers/mind_ram/mind_ram_drv.h:285-300 | In 32-bit unsigned arithmetic a write is refused exactly when used + size >= BUFFER_SIZE - 1. |
| Rings.LoadOfStore | remote_mem/drivers/mind_ram/mind_ram_drv.h:303-346 | Reading back what was stored returns it, however it wrapped. |
| Rings.StoreAppends | remote_mem/drivers/mind_ram/mind_ram_drv.h:333-346 | A write appends to the stream of unread bytes and overwrites none of them. |
| Rings.LoadSplits | remote_mem/drivers/mind_ram/mind_ram_drv.h:303-329 | A read at the tail takes a prefix of the unread bytes and leaves the rest. |
| Rings.FaultBuffer.CopyTo | remote_mem/drivers/mind_ram/mind_ram_drv.h:333-346 | Accepted exactly when it fits, it returns the old head and appends the bytes. |
| Rings.FaultBuffer.Write | remote_mem/drivers/mind_ram/mind_ram_drv.h:339-342 | The one or two copies leave exactly the wrapped bytes in the buffer. |
| Rings.FaultBuffer.CopyFrom | remote_mem/drivers/mind_ram/mind_ram_drv.h:303-329 | Reads at the given offset, reports one that is not the tail, and at the tail takes the oldest bytes. |
| RingProtocol.StepKeepsInv | remote_mem/drivers/mind_ram/mind_ram_drv_worker.c:185-236 | Every access of producer and consumer keeps the rings' contents equal to the part of the history between their positions. |
| RingProtocol.RingsStayPaired | remote_mem/drivers/mind_ram/mind_ram_drv_worker.c:185-236 | In every interleaving, also when the driver stops half-way, no error is reported and the consumer has received an initial part of what the run's steps gave the producer, each task with its own bytes. |
| RingProtocol.OffsetIsTail | remote_mem/drivers/mind_ram/mind_ram_drv.h:317-328 | A data-carrying task about to be copied points at the tail, and there lie the bytes that were given with it. |
| RingProtocol.DrainedMeansDelivered | remote_mem/drivers/mind_ram/mind_ram_drv_worker.c:222-235 | When both sides rest and the queue is empty, everything the producer was given was received and no byte is left. |
| TradeShares.Normalize | res_allocation/allocators/inc_trade_allocator.py:794-807 | A total above one becomes one, every share divided by it; any other total and its shares stay as they are. |
| FijTrade.PositiveGain | res_allocation/allocators/fij_trade_allocator.py:476-484 | A positive score means a known estimate and a strictly larger one, also with -1 among them. |
| FijTrade.CalculateScores | res_allocation/allocators/fij_trade_allocator.py:430-499 | Scores exactly the users that did not trade in the previous round. |
| FijTrade.PrefersCacheIff | res_allocation/allocators/fij_trade_allocator.py:430-499 | A user prefers cache if and only if its estimate is known, the limits allow the trade, the trade raises the estimate, and the opposite trade is not allowed or raises it less. |
| FijTrade.PrefersBwIff | res_allocation/allocators/fij_trade_allocator.py:430-499 | Likewise for bandwidth. |
| FijTrade.FindMostCacheSensitive | res_allocation/allocators/fij_trade_allocator.py:512-528 | The first of the greatest scores among those that prefer cache, none exactly if there are none. |
| FijTrade.FindMostBwSensitive | res_allocation/allocators/fij_trade_allocator.py:542-562 | Likewise for bandwidth, without the excluded user. |
| FijTrade.Trade | res_allocation/allocators/fij_trade_allocator.py:392-416 | Makes the chosen trade; with totals of at most one normalisation is the identity. |
| FijTrade.TradesExactlyWhenWanted | res_allocation/allocators/fij_trade_allocator.py:395-400 | Unless the id zero may be chosen, a round trades if and only if, among those that did not trade last time, one prefers cache and one bandwidth. |
| FijTrade.TradesAsWantedIff | res_allocation/allocators/fij_trade_allocator.py:395-400 | Where two or more users are eligible and have room, that holds for all estimates if and only if the id zero is not among them. |
| FijTrade.ZeroStopsTrading | res_allocation/allocators/fij_trade_allocator.py:399-400 | Three applications of which the one with id zero is chosen first, so that nothing is traded; without it the other two trade. |
| FijTrade.TradersGain | res_allocation/allocators/fij_trade_allocator.py:399-409 | Both traders' estimates strictly rise, they are two users, neither traded last time, and both stay within the limits. |
| FijTrade.TradeKeepsTotals | res_allocation/allocators/fij_trade_allocator.py:583-590 | A trade leaves both totals as they are. |
| FijTrade.RoundIsParetoStep | res_allocation/allocators/fij_trade_allocator.py:389-416 | The traders' estimates strictly rise, nobody else changes, and bounds are kept. |
| FijTrade.FijTradeAllocator.Round | res_allocation/allocators/fij_trade_allocator.py:355-416 | One round of a VM: the trade, the new marks, the new shares, and nothing of other VMs. |
| FijTrade.FijTradeAllocator.Run | res_allocation/allocators/fij_trade_allocator.py:355-416 | Over any run totals and bounds are kept and nobody trades in two rounds in a row. |
| IncTrade.FindLatest | res_allocation/allocators/inc_trade_allocator.py:524-531 | The user whose decision is latest, the first of equals; none exactly if no user of the VM has a decision with a positive time. |
| IncTrade.Recheck | res_allocation/allocators/inc_trade_allocator.py:533-570 | Only the latest decision changes, and only if its user was measured and is not zero. It keeps direction and time and takes the new performance; its resource switches exactly when a reduction cost more than the margin or a grant cost at least that; a reduction is revoked exactly when it cost more than the greater margin. |
| IncTrade.FindWorst | res_allocation/allocators/inc_trade_allocator.py:588-629 | The first user with the lowest ratio among those that may still grow, none exactly if there are none. |
| IncTrade.FindBest | res_allocation/allocators/inc_trade_allocator.py:767-792 | The first user with the highest ratio among those that may still shrink, none exactly if there are none. |
| IncTrade.ChooseMove | res_allocation/allocators/inc_trade_allocator.py:418-449 | A grant to the worst performer if the pool has its resource, else a harvest from the best. |
| IncTrade.RevocationLoses | res_allocation/allocators/inc_trade_allocator.py:544-550 | A revocation takes exactly one unit from a non-empty pool and nothing from an empty one. |
| IncTrade.MoveKeepsTotal | res_allocation/allocators/inc_trade_allocator.py:669-733 | A move keeps shares plus pool and whole units in the pool; the clip at zero is never reached. |
| IncTrade.MoveIsOneUnit | res_allocation/allocators/inc_trade_allocator.py:669-733 | A move is about one unit of one resource of one user; the pool moves the other way and nothing else changes. |
| IncTrade.MoveConserves | res_allocation/allocators/inc_trade_allocator.py:669-733 | Within the bounds it also keeps them. |
| IncTrade.Step | res_allocation/allocators/inc_trade_allocator.py:395-457 | One round of a VM on the fields it reads and writes. |
| IncTrade.RoundConserves | res_allocation/allocators/inc_trade_allocator.py:395-457 | On one VM a round keeps shares plus pool exactly, less the unit a revocation loses, so nothing is created and normalisation does nothing. |
| IncTrade.RoundCreatesNothing | res_allocation/allocators/inc_trade_allocator.py:395-457 | Whatever other VMs did to the pool, a round of a VM does not raise its shares plus pool. |
| IncTrade.RevocationReturnsNothing | res_allocation/allocators/inc_trade_allocator.py:544-550 | The user of a revoked reduction does not get its unit back. |
| IncTradeRuns.HarvestNamesOpposite | res_allocation/allocators/inc_trade_allocator.py:735-748 | After a harvest the user's decision names the resource that was not harvested, going down, at the performance of this round. |
| IncTradeRuns.GrantNamesGranted | res_allocation/allocators/inc_trade_allocator.py:680-700 | After a grant it names the granted resource, going up, so that more of it is tried. |
| IncTradeRuns.RevocationTakesOpposite | res_allocation/allocators/inc_trade_allocator.py:544-550 | A revocation in the next round takes its unit from the pool of that other resource; the pool of the harvested one stays. |
| IncTradeRuns.UnitCanBeLost | res_allocation/allocators/inc_trade_allocator.py:544-550 | Five calls for three measured applications from the first static round, baseline recorded where the code records it, after which bandwidth shares plus pool are one unit less than at the start. |
| IncTradeRuns.ComparedWithItself | res_allocation/allocators/inc_trade_allocator.py:296-300 | In a call that finds the static shares every measured application has the ratio one, or infinity at zero. |
| IncTradeRuns.FirstRoundIsBlind | res_allocation/allocators/inc_trade_allocator.py:296-354 | For all applications, measurements and limits the first dynamic round harvests bandwidth from the first measured application without progress, or else from the first measured one; it does nothing exactly if none made progress or the equal share has no room for a unit more and less. |
| IncTradeRuns.FirstRoundIgnoresPerformance | res_allocation/allocators/inc_trade_allocator.py:296-354 | Any two positive measurements of the same applications lead to the same first move. |
| IncTradeRuns.MarkedRun | res_allocation/allocators/inc_trade_allocator.py:421-449 | Once all applications of a VM are marked, no round of any run adjusts them and all shares stay. |
| IncTradeRuns.StartedIsReady | res_allocation/allocators/inc_trade_allocator.py:305-312 | Static rounds of a VM with one application lead to the state the next three rows start from. |
| IncTradeRuns.LoneCall | res_allocation/allocators/inc_trade_allocator.py:296-354 | A call for a VM with one unadjusted application takes one unit of its bandwidth exactly if it is measured above zero and the limits leave room, and leaves it as it is otherwise. |
| IncTradeRuns.LoneRunFreezes | res_allocation/allocators/inc_trade_allocator.py:421-449 | Over any run it is adjusted at most once, by that harvest, and its final shares follow from whether it was. |
| IncTradeRuns.LoneAdjustableIff | res_allocation/allocators/inc_trade_allocator.py:610-629 | Some run adjusts it if and only if the limits leave room for one unit more and one unit less than the whole bandwidth. |
| IncTrade.StaticRoundConservesIff | res_allocation/allocators/inc_trade_allocator.py:305-312 | With equal shares on every VM, for each VM and resource shares plus pool are at most one exactly when that pool is empty. |
| IncTrade.IncrementalTradeAllocator.AllocateStatic | res_allocation/allocators/inc_trade_allocator.py:143-207 | A static round gives every VM's applications equal shares, notes them as the static allocation, changes nothing else, and therefore fits beside the pool exactly when that is empty. |
| IncTrade.IncrementalTradeAllocator.RecordBaseline | res_allocation/allocators/inc_trade_allocator.py:209-283 | The baseline is recorded exactly while the shares are the static ones, and those it is recorded for try bandwidth first. |
| IncTrade.IncrementalTradeAllocator.Begin | res_allocation/allocators/inc_trade_allocator.py:296-312 | A new allocator and any number of static calls, each recording the baseline first, lead to the state the runs start from. |
| IncTrade.IncrementalTradeAllocator.Call | res_allocation/allocators/inc_trade_allocator.py:296-354 | A dynamic call records the baseline again exactly while the shares are the static ones, then makes its round. |
| IncTradeRuns.StaticRoundCanExceed | res_allocation/allocators/inc_trade_allocator.py:305-312 | A run from the first static round with one harvest, after which a second static round brings bandwidth shares plus pool to 1.1. |
| IncTrade.IncrementalTradeAllocator.Round | res_allocation/allocators/inc_trade_allocator.py:349-354 | A round stores the new shares, pool, decisions and marks of its VM and nothing of other VMs. |
| IncTrade.IncrementalTradeAllocator.Run | res_allocation/allocators/inc_trade_allocator.py:378-457 | Over any run on one VM shares plus pool never grow, the pool holds whole units and shares keep their bounds. |
| IncTrade.IncrementalTradeAllocator.RunMany | res_allocation/allocators/inc_trade_allocator.py:296-354 | With many VMs on one pool every VM's shares sum to at most one after every call, the shares of all VMs plus pool never grow, and the pool holds whole units. |
| TraceLoader.GenerateDbRequest | lib/src/libcache_loader.rs:127-153 | The running total is the sum over distinct keys of the size last seen, so shrinking it cannot underflow; the request keeps its key, its size up to the largest value, and a hundredth of its time. |
| TraceLoader.SizesAreLastSeen | lib/src/libcache_loader.rs:127-153 | Every key is tracked with the size of its last request, up to the largest value. |
| TraceLoader.OnlySeenAreTracked | lib/src/libcache_loader.rs:127-153 | No key is tracked that was not requested. |
| TraceLoader.Parse | lib/src/libcache_loader.rs:76-110 | Reads up to the first invalid request or limit; each output time is the sum of the gaps so far, each capped at the idle limit. With overflow checks a subtraction panics exactly when some valid request, reached before any limit, is the first at which that sum is negative, and it does so there. |
| TraceLoader.UnderflowOrLoaded | lib/src/libcache_loader.rs:76-110 | A complete load and such a request exclude each other. |
| TraceLoader.OrderedTimes | lib/src/libcache_loader.rs:87-92 | On an ordered trace output times never run backwards, never pause beyond the limit and never overtake the trace. |
| TraceLoader.OrderedTraceLoads | lib/src/libcache_loader.rs:87-92 | No request of an ordered trace underflows, so it is always loaded. |
| TraceLoader.BackwardTraceUnderflows | lib/src/libcache_loader.rs:87-91 | A trace of two requests whose second one is such a request, so that it is not loaded. |
| TraceLoader.BusyTraceUnchanged | lib/src/libcache_loader.rs:87-92 | A trace without idle stretches keeps its times. |
| TraceLoader.ExampleTimes | lib/src/libcache_loader.rs:87-92 | The output times of a trace with a busy start, an idle stretch and a step back. |
| TraceLoader.ParseWrapping | lib/src/libcache_loader.rs:76-110 | Without overflow checks every trace is loaded, each output time being the sum of the gaps so far, where a gap beyond the idle limit or back beyond zero counts as the idle limit. |
| TraceLoader.WrappedAgrees | lib/src/libcache_loader.rs:87-92 | Both builds give the same times up to the first underflow, and there the wrapping one goes on by the idle limit. |
| MonitorStore.AddRecordKeepsOk | res_allocation/resource_monitor.py:430-452 | Adding a record keeps the data-point count equal to the number of distinct keys, the record count equal to the number of records, and times strictly increasing up to the time of update. |
| MonitorStore.ConsumeAll | res_allocation/resource_monitor.py:414-452 | Every buffered key gets exactly one record of this iteration, with the median of its measurements, no other key any; an application's curve becomes that of one of its consumed keys, and applications without any stay as they were. |
| MonitorStore.BufferInto | res_allocation/resource_monitor.py:328-355 | A value is appended and its curve merged into the stored one, unless the value repeats the last; an entry without a curve leaves the stored one; no other key's values or curve change. |
| MonitorStore.MeasurementStore.BufferEntry | res_allocation/resource_monitor.py:328-368 | The same on the store; the usage is blended into the last one exactly when the entry has a curve and is no repetition. |
| MonitorStore.MeasurementStore.UpdateRecent | res_allocation/resource_monitor.py:373-385 | Each buffered application's window drops its oldest snapshot if it exceeds the window and gets a new one, the median of every measured key; other windows stay. |
| MonitorStore.WindowIsMostRecent | res_allocation/resource_monitor.py:373-385 | After any number of consumptions a window holds exactly the most recent snapshots, recent_window + 1 of them. |
| MonitorStore.MeasurementStore.Consume | res_allocation/resource_monitor.py:406-459 | One iteration on: every buffered key one record richer, the time of update and the curve of its application set, every buffered application's window moved on, all other data unchanged, the buffer empty, the store consistent. |
| MonitorStore.MeasurementStore.Reset | res_allocation/resource_monitor.py:567-614 | Clears one application in all five tables and no other in any; true exactly if there was something to clear. |
| MonitorStore.MeasurementStore.Replay | res_allocation/resource_monitor.py:406-459 | Any run of buffering, consuming and resetting keeps the store consistent. |

## Left out

- The seed of the sweep (the static allocation moved into the search range, and `check_last_allocation`): the sweep's results hold for any seed, and its rounding gives no clean bound on cost or limits.
- Floating-point rounding: shares, prices and utilities are real numbers.
- The linear price search, the adaptive iteration bound and the flat allocation without a VM map.
- The filter and sort of a VM's application list, and the "price" entry stored beside each share: a VM is the list of its applications.
- The choice between a static and a dynamic round: which it is, is an input.
- QuiescentMeansDone: assumes that no post was refused, because the driver never ends a request with a refused segment; the safety results do not assume it.
- EstimateRisesExactlyWhenCacheSafe: assumes that the current rate and the rate at which the allocation is just saturated are not below the floor of 1e-12 that rates are raised to; below it the floor, not the cache, decides the estimate.
- Error paths of submission (too many segments, out of range) end the request in the block layer and are modelled in `BlockSubmit` only; READ and WRITE are the only opcodes.
- RDMA connection handling, DMA mapping, page statistics and data copies of the driver.
- Several reads of a ring position inside one check are one read; memory barriers are taken to order publication after the copy.
- A call of `IncrementalTradeAllocator` is given one performance per application: the search for the nearest measured point is not modelled, nor that it truncates the cache size in one place and not in the other.
- Ties between equal decision times in `IncrementalTradeAllocator` are resolved in the order of the users.
- The median and the weighted merges of miss-rate curves and of usage are parameters of the measurement store; filtering of raw entries and races with the reset thread are not modelled.
- The integers deployed by the trading allocators: they are share times scale, truncated, as in `Auction`.
- Random values, progress output and the file reader of the trace loader.
- The MRC regression, deployers, servers, log parsers, the memcached client, static and oracle allocators.
