# Verified model of rmw_zenoh_cpp

`rmw_zenoh_cpp` implements the ROS 2 middleware interface on top of Zenoh. This project models its stateful core
in Dafny and proves what that core is for:

- **Waiting** (`wait_*.dfy`, `guard_condition.dfy`). The protocol between `rmw_wait` and the threads that make an
  entity ready is an interleaving step system with explicit mutex owners and program counters: one waiter, any
  number of entities and of notifier threads. No wake-up is lost, every reachable state is described by one
  inductive invariant, a wait set can deadlock exactly when two of its slots conflict, and an untimed call can end
  with nothing to report exactly when it starts beside a late announcement. What a timeout decides is proved for all
  three kinds. Guard conditions and the passes over their array are modelled a second time as classes.
- **The graph cache** (`graph_*.dfy`, `topic_*.dfy`, `matched_*.dfy`, `qos_events.dfy`). The nested indexes are
  proved to picture a plain set of live nodes and endpoints after every token; the plain set is proved to tolerate
  reordering and repetition of tokens; counting queries count the plain set; and the matched events reported add up
  to the matches there are, after every change of a run, if and only if every change is harmless in a stated sense.
- **Liveliness tokens and QoS text** (`keyexpr.dfy`, `qos.dfy`, `liveliness.dfy`, `documented_tokens.dfy`). Printer
  and parser, with the exact condition under which an entity comes back from its own token, and the documented layout.
- **Entity data** (`event_manager.dfy`, `service_data.dfy`, `subscription_data.dfy`, `client_data.dfy`,
  `buffer_pool.dfy`). Classes whose invariants are conservation laws: of requests, of messages, of event changes, of
  callbacks, of pool bytes.
- **XXH3-128** (`xxhash3*.dfy`). The exact 64x64 to 128 bit product, the agreement of the branches for 32-bit and
  64-bit machines, and, for every length, that the code reads every byte of the input and none outside it and
  computes the rounds of the xxHash specification ("XXH3 Algorithm Overview" and the descriptions of small, medium
  and large inputs).

`dafny verify dfyconfig.toml` checks everything.

Conventions. A hash of a token is an arbitrary function `hash: string -> int`; where a result needs it to separate
two endpoints, the lemma or method says so. A user callback is a number. Strings are sequences of characters.
Anything that depends on time, on the network, on an allocator or on a serializer is a parameter or a
nondeterministic step.

Where the code and its comments disagree, the code is followed. `rmw_wait_set_data.hpp` says that conditions are
checked without the lock; the code holds `condition_mutex` while it attaches. `event.cpp` writes `changed` under
`event_mutex_` and reads it under `event_condition_mutex_`; the step system has both steps.

Results that are not what one might expect, each proved with its exact condition or a concrete run:

- A wait set may deadlock: two slots with the same mutex, or any event of a subscription's events manager before that
  subscription (`WaitDeadlock.DeadlockIff`).
- An untimed wait may end with every slot null: an event status is taken between being written and being announced.
  `UntimedWaits.TimesOutIff` gives the exact condition at the start of the call, `UntimedWaits.EventSlotIff` the one
  on the wait set: it can happen if and only if there is an event slot.
- A new publisher or subscription is told of too many matches when a QoS bucket visited before the last one holds a
  peer, because the count is reported inside the loop over buckets (`MatchedCounts.OwnExactIff`,
  `GraphImbalance.TwoBuckets`). Whatever the order of the buckets, it is told the right number exactly when it has no
  match or there is a single bucket (`MatchedCounts.EveryOrderExactIff`).
- Arrivals compare key expressions and departures do not, so topics with two type hashes get out of balance
  (`GraphImbalance.TwoTypeHashes`).
- A token received twice while its entity is live repeats its reports (`GraphImbalance.AnnouncedTwice`).
- The delete token of an endpoint that is not live is reported to the local peers when its QoS bucket exists
  (`MatchedCounts.DelBalancedIff`, `GraphImbalance.UnknownDeparts`).
- In runs in which a local endpoint does not come back after it departed, these four ways are all there are
  (`MatchedCounts.BalancedThroughoutIff`, and without mention of the order of buckets
  `MatchedCounts.EveryOrderThroughoutIff`). A discipline for tokens that avoids them all is proved to do so
  (`GraphRuns.ReceiveAll`).
- Losses are reported for what an order-preserving channel dropped exactly when numbers arrive increasing and no gap
  exceeds the 32-bit count: disorder makes the report too large, the clamp too small
  (`LostMessages.LostTotalExactIff`, `LostMessages.ClampedTotalExactIff`).
- The buffer pool's `size_t` sum may wrap. A growth that wraps is always admitted, and the account is wrong exactly
  when such a growth is counted (`BufferPools.BufferPool.Allocate`, `BufferPools.WrappedRequest`).

## Model

| member | source | states |
|---|---|---|
| WaitSafety.StepInv | rmw_zenoh_cpp/src/rmw_zenoh.cpp:2104-2361 | every step of the waiter and of any notifier keeps the lock table, the attachment set and the wake-up condition consistent |
| WaitSafety.ReachableInv | rmw_zenoh_cpp/src/rmw_zenoh.cpp:2196-2361 | the invariant holds in every state of every run, for any number of entities and notifiers |
| WaitSafety.NoLostWakeup | rmw_zenoh_cpp/src/rmw_zenoh.cpp:2236-2267 | if the waiter sleeps with no wake-up pending and an attached entity has data, a notifier of that entity is on its way to set `triggered` |
| WaitSafety.NotifierKeepsWritten | rmw_zenoh_cpp/src/detail/event.cpp:172-258 | the two-mutex case: data that appears between check and attach has a notifier that has not yet looked for the wait set |
| WaitSafety.ReturnDetachesAll | rmw_zenoh_cpp/src/rmw_zenoh.cpp:2269-2361 | after the call nothing is attached and every slot has been decided |
| WaitResults.AllReadyReported | rmw_zenoh_cpp/src/rmw_zenoh.cpp:2273-2357 | a slot whose entity is ready when the passes begin, and is not taken meanwhile, is reported when the call returns |
| UntimedWaits.TimesOutIff | rmw_zenoh_cpp/src/rmw_zenoh.cpp:2196-2361 | some run without takers lets an untimed call end with every slot null if and only if, when it begins, no entry has data, no notifier owes one of its queues a message, and the status of one of its events has been written and not yet announced |
| UntimedWaits.EventSlotIff | rmw_zenoh_cpp/src/rmw_zenoh.cpp:2196-2361 | an untimed call on a wait set can end with every slot null, from some reachable start and without takers, if and only if the wait set has an event slot |
| UntimedWaits.WithoutEventsReturnsOk | rmw_zenoh_cpp/src/rmw_zenoh.cpp:2245-2250 | a wait set without event slots always returns with some slot ready, from whatever reachable state an untimed call begins |
| UntimedWaits.UntimedWaitReturnsOk | rmw_zenoh_cpp/src/rmw_zenoh.cpp:2245-2250 | from anywhere inside an untimed call: if what is to be announced for its entries is there, every run without takers ends with some slot ready |
| UntimedWaits.SpuriousTimeout | rmw_zenoh_cpp/src/detail/event.cpp:151-197 | for every wait set with an event slot: a reachable start of an untimed call, and a run without takers after which every slot is null |
| WaitResults.WakeupHasCause | rmw_zenoh_cpp/src/rmw_zenoh.cpp:2187-2192 | a stale `triggered` never ends a later wait: a notifier of an entity of this call set it while the waiter slept |
| WaitResults.TriggerIsReported | rmw_zenoh_cpp/src/detail/guard_condition.cpp:31-71 | a triggered guard condition stays triggered until a call reports its slot as ready |
| WaitResults.ReportUsesUpTrigger | rmw_zenoh_cpp/src/detail/guard_condition.cpp:60-71 | after its slot was read a guard condition is ready again only when somebody triggers it again |
| WaitResults.DataStaysUntilTaken | rmw_zenoh_cpp/src/detail/rmw_subscription_data.cpp:383-438 | queued data and event statuses are not consumed by a report: they stay until taken |
| WaitResults.FlagIsRecent | rmw_zenoh_cpp/src/rmw_zenoh.cpp:2241-2267 | a set `triggered` was set after the waiter last began or ended a sleep: both clear it |
| WaitDeadlock.BlockerRanksHigher | rmw_zenoh_cpp/src/rmw_zenoh.cpp:2236-2267 | in an independent wait set whoever blocks a thread ranks above it, so the wait-for graph has no cycle |
| WaitDeadlock.Progress | rmw_zenoh_cpp/src/rmw_zenoh.cpp:2236-2267 | from every reachable state of an independent wait set with an active thread some step continues a call |
| WaitDeadlock.DeadlockIff | rmw_zenoh_cpp/src/detail/rmw_subscription_data.cpp:497-556 | a wait set can reach a deadlock if and only if two of its slots conflict |
| WaitDeadlock.ConflictMeans | rmw_zenoh_cpp/src/detail/rmw_subscription_data.cpp:497-556 | two slots conflict exactly when they are the same, or two events of one manager, or an event of a subscription's manager before that subscription |
| WaitDeadlock.DeadlockIsForEver | rmw_zenoh_cpp/src/rmw_zenoh.cpp:2236-2267 | no thread of a closed group ever takes a step again, whatever the others do |
| WaitTimeouts.ZeroIsAwake | rmw_zenoh_cpp/src/rmw_zenoh.cpp:2253-2267 | in no reachable state does a call with a timeout of zero sleep |
| WaitTimeouts.ZeroCallNeverSleeps | rmw_zenoh_cpp/src/rmw_zenoh.cpp:2253-2267 | a call entered with a timeout of zero is not asleep after any run of all threads |
| WaitTimeouts.ZeroCallBounded | rmw_zenoh_cpp/src/rmw_zenoh.cpp:2196-2361 | such a call returns after a number of its own steps that its wait set bounds, however they interleave |
| WaitTimeouts.ZeroCallGoesOn | rmw_zenoh_cpp/src/rmw_zenoh.cpp:2196-2361 | until it returns it can make its next step, unless a notifier holds the mutex it wants |
| WaitTimeouts.FiniteSleepEnds | rmw_zenoh_cpp/src/rmw_zenoh.cpp:2245-2267 | a sleeping call with a finite timeout may time out at any moment |
| WaitTimeouts.TimedCallReturns | rmw_zenoh_cpp/src/rmw_zenoh.cpp:2245-2361 | a call with a timeout, zero or not, comes to its end by its own steps alone when no notifier stands in the way |
| WaitTimeouts.UntimedSleepsOn | rmw_zenoh_cpp/src/rmw_zenoh.cpp:2245-2250 | a sleeping call without timeout sleeps until a notifier signals |
| GuardConditions.GuardCondition.Trigger | rmw_zenoh_cpp/src/detail/guard_condition.cpp:31-45 | the flag is set, and an attached wait set is told |
| GuardConditions.GuardCondition.DetachConditionAndIsTriggerSet | rmw_zenoh_cpp/src/detail/guard_condition.cpp:60-71 | the condition is detached and its flag read and cleared |
| GuardConditions.CheckAndAttach | rmw_zenoh_cpp/src/rmw_zenoh.cpp:2105-2125 | waiting is skipped exactly when some condition is triggered, otherwise every condition is attached |
| GuardConditions.DetachAll | rmw_zenoh_cpp/src/rmw_zenoh.cpp:2269-2290 | a slot stays exactly when its condition was triggered and no earlier slot held it; nothing stays attached or set |
| GuardConditions.WaitZero | rmw_zenoh_cpp/src/rmw_zenoh.cpp:2199-2290 | run alone, the call returns OK exactly when some condition was triggered, and reports exactly those; a flag left by an earlier announcement survives exactly when the wait is skipped |
| Decimal.StoulOfToDec | rmw_zenoh_cpp/src/detail/liveliness_utils.cpp:252-286 | a printed number is read back |
| KeyExpr.SplitKeyexpr | rmw_zenoh_cpp/src/detail/liveliness_utils.cpp:231-246 | the scanning loop yields the parts between delimiters |
| KeyExpr.SplitOfJoin | rmw_zenoh_cpp/src/detail/liveliness_utils.cpp:231-246 | splitting undoes joining parts without delimiters |
| KeyExpr.MangleName | rmw_zenoh_cpp/src/detail/liveliness_utils.cpp:697-708 | the loop replaces every slash |
| KeyExpr.DemangleOfMangle | rmw_zenoh_cpp/src/detail/liveliness_utils.cpp:697-722 | demangling undoes mangling exactly for names without the replacement character |
| QoSProfile.QosToKeyexpr | rmw_zenoh_cpp/src/detail/liveliness_utils.cpp:290-351 | the text built step by step, or nothing when a value is outside its table |
| QoSProfile.KeyexprToQos | rmw_zenoh_cpp/src/detail/liveliness_utils.cpp:353-425 | the reading steps give the profile the text stands for, or nothing in each error case |
| QoSProfile.DecodeOfEncode | rmw_zenoh_cpp/src/detail/liveliness_utils.cpp:290-425 | every encodable profile is read back from its text, elided defaults included |
| QoSProfile.RoundTripIff | rmw_zenoh_cpp/src/detail/liveliness_utils.cpp:290-425 | a profile comes back from its text exactly when it is encodable |
| QoSProfile.EncodeInjective | rmw_zenoh_cpp/src/detail/liveliness_utils.cpp:290-351 | profiles print alike only if they are equal |
| QoSProfile.AdaptSettles | rmw_zenoh_cpp/src/detail/qos.cpp:78-160 | an adapted profile has depth at least 1 and no placeholder, and adapting again changes nothing |
| QoSProfile.AdaptKeeps | rmw_zenoh_cpp/src/detail/qos.cpp:78-160 | fields the caller set are kept, fields left open come from the default |
| QoSProfile.RefusedIff | rmw_zenoh_cpp/src/detail/qos.cpp:61-75 | a profile is refused exactly when a policy is unknown |
| DocumentedTokens.QoSLayout | rmw_zenoh_cpp/src/detail/liveliness_utils.cpp:290-351 | which field stands in which place of a QoS text |
| DocumentedTokens.ListenerQoS | docs/design.md:224-224 | the QoS text of the documented listener |
| DocumentedTokens.DifferentQoS | rmw_zenoh_cpp/src/detail/liveliness_utils.hpp:206-228 | the text of a profile that differs from the default everywhere, and its reading |
| Liveliness.BuildToken | rmw_zenoh_cpp/src/detail/liveliness_utils.cpp:435-497 | the printing loop yields the token, or nothing when the QoS encoder throws |
| DocumentedTokens.NodeToken | docs/design.md:179-179 | the layout of a node's token |
| DocumentedTokens.EndpointToken | docs/design.md:185-185 | the layout of an endpoint's token, with the letters of its kind |
| Liveliness.StripSlashesOf | rmw_zenoh_cpp/src/detail/liveliness_utils.cpp:61-73 | one slash at either end goes, and a lone slash disappears |
| Liveliness.TopicKeyexprIff | rmw_zenoh_cpp/src/detail/liveliness_utils.cpp:76-94 | for one topic name and type, key expressions are equal exactly within one domain and for one type hash |
| Liveliness.Make | rmw_zenoh_cpp/src/detail/liveliness_utils.cpp:536-619 | the checks in the order of the code give the entity, the rejection or the exception |
| Liveliness.ParseOfToken | rmw_zenoh_cpp/src/detail/liveliness_utils.cpp:536-619 | a valid entity is parsed back from its token with all fields |
| Liveliness.RoundTripIff | rmw_zenoh_cpp/src/detail/liveliness_utils.cpp:435-619 | an entity comes back from its own token if and only if it is valid |
| Liveliness.TokenInjective | rmw_zenoh_cpp/src/detail/liveliness_utils.cpp:435-497 | different valid entities have different tokens |
| Liveliness.ReprintIsStable | rmw_zenoh_cpp/src/detail/liveliness_utils.cpp:536-619 | whatever token was accepted, the one its entity prints is accepted and means the same |
| TopicIndex.InsertPictures | rmw_zenoh_cpp/src/detail/graph_cache.cpp:127-198 | writing back an extended bucket adds exactly one endpoint to what the nested index pictures |
| TopicIndex.RemovePictures | rmw_zenoh_cpp/src/detail/graph_cache.cpp:421-500 | erasing an endpoint, and whatever it leaves empty, removes exactly that endpoint |
| TopicIndex.PictureUnique | rmw_zenoh_cpp/src/detail/graph_cache.hpp:46-130 | two indexes of the same endpoints agree on every bucket |
| TopicIndex.TypePresent | rmw_zenoh_cpp/src/detail/graph_cache.cpp:127-198 | a name and type are present exactly when a live endpoint has them: no map is left empty |
| TopicIndex.CountEntities | rmw_zenoh_cpp/src/detail/graph_cache.cpp:903-984 | the nested sums count the live endpoints of a role and name |
| TopicIndex.CountMatched | rmw_zenoh_cpp/src/detail/graph_cache.cpp:823-888 | one check per bucket against the stored profile counts the endpoints whose own profile passes |
| TopicIndex.AnyServer | rmw_zenoh_cpp/src/detail/graph_cache.cpp:1262-1283 | the loop finds a server exactly when one is filed |
| QosEvents.EventLedger.UpdateCounters | rmw_zenoh_cpp/src/detail/graph_cache.cpp:1351-1403 | a change reaches the registered callback or is stored; delivered plus stored is the total reported |
| QosEvents.EventLedger.SetCallback | rmw_zenoh_cpp/src/detail/graph_cache.cpp:1286-1321 | a new callback receives in one call all that waited, the books still balance, and no other callback changes |
| QosEvents.EventLedger.RemoveCallbacks | rmw_zenoh_cpp/src/detail/graph_cache.cpp:1324-1328 | the callbacks of one entity go, all others and the balance of delivered and stored changes stay |
| QosEvents.TotalOfAppend | rmw_zenoh_cpp/src/detail/graph_cache.cpp:1351-1403 | totals of successive reports add up for every entity and event |
| MatchedEvents.HandleForPut | rmw_zenoh_cpp/src/detail/graph_cache.cpp:201-272 | each local peer with the same key expression is told once, the new entity the running totals over the buckets; no callback is told of a change of nothing |
| MatchedEvents.HandleForDel | rmw_zenoh_cpp/src/detail/graph_cache.cpp:275-311 | each local peer is told once of a departure, whatever its key expression |
| MatchedEvents.TellsByKind | rmw_zenoh_cpp/src/detail/graph_cache.cpp:235-311 | by entity kind and event id: a publisher's arrival or departure tells its local subscriptions of SUBSCRIPTION_MATCHED and itself of PUBLICATION_MATCHED, nobody of anything else; a subscription's the other way round |
| MatchedEvents.OversizedBucket | rmw_zenoh_cpp/src/detail/graph_cache.cpp:213-240 | a bucket beyond the range of `int32_t` is not counted |
| MatchedEvents.OwnReportExactIff | rmw_zenoh_cpp/src/detail/graph_cache.cpp:235-269 | the new entity's report is the number of peers exactly when every bucket before the last visited holds none, else it is larger |
| MatchedEvents.TwoBucketsOvercount | rmw_zenoh_cpp/src/detail/graph_cache.cpp:235-269 | two buckets with a peer each: two matches, three reported |
| MatchedEvents.MetCounts | rmw_zenoh_cpp/src/detail/graph_cache.cpp:213-240 | the bucket sizes along any visiting order add up to the number of peers |
| MatchedCounts.OwnExactIff | rmw_zenoh_cpp/src/detail/graph_cache.cpp:235-269 | the own report is the number of matches exactly when all are in the bucket visited last, and nothing exactly when there is none |
| MatchedCounts.EveryOrderExactIff | rmw_zenoh_cpp/src/detail/graph_cache.cpp:235-269 | the own report is right for every visiting order exactly when there is no match or one bucket |
| MatchedCounts.StepBalancedIff | rmw_zenoh_cpp/src/detail/graph_cache.cpp:201-311 | one change, of any kind, keeps reported and actual matches equal if and only if it is harmless: an arrival whose local matches share its key expression and, if local, are all in the last bucket; a repeated arrival that nobody is told of; a departure of a live endpoint, or without bucket, or without local match |
| MatchedCounts.BalancedThroughoutIff | rmw_zenoh_cpp/src/detail/graph_cache.cpp:201-535 | over every run with new local endpoints new: reports and matches agree after every change if and only if every change is harmless |
| MatchedCounts.LastChangeDecides | rmw_zenoh_cpp/src/detail/graph_cache.cpp:201-535 | from a balanced state the next change of a run keeps the balance exactly when it is harmless |
| MatchedCounts.EveryOrderStepIff | rmw_zenoh_cpp/src/detail/graph_cache.cpp:201-311 | one move keeps the balance for every visiting order of the buckets if and only if it is harmless, with no match or a single bucket where a new local endpoint arrives |
| MatchedCounts.EveryOrderThroughoutIff | rmw_zenoh_cpp/src/detail/graph_cache.cpp:201-535 | all runs of the same moves, whatever the visiting orders, are balanced after every change if and only if every move is sure in that sense |
| MatchedCounts.DelBalancedIff | rmw_zenoh_cpp/src/detail/graph_cache.cpp:275-311 | a departure keeps them equal exactly when the endpoint was live, or its bucket does not exist, or it has no local match |
| MatchedCounts.ServiceKeepsBalanced | rmw_zenoh_cpp/src/detail/graph_cache.cpp:503-535 | reports about services, which only node removal makes, leave publishers and subscriptions balanced |
| MatchedCounts.MatchedCountsConserved | rmw_zenoh_cpp/src/detail/graph_cache.cpp:201-535 | over every run of arrivals into uniform topics (local endpoints once, others when not live) and departures while live, node removals included, the reports to each live local endpoint add up to its matches after every change |
| MatchedCounts.BalancedByKind | rmw_zenoh_cpp/src/detail/graph_cache.cpp:201-311 | a balanced run has told live local publishers of the subscriptions they match under PUBLICATION_MATCHED, live local subscriptions of publications under SUBSCRIPTION_MATCHED, and neither anything under the other id |
| GraphCaches.CacheBalanced | rmw_zenoh_cpp/src/detail/graph_cache.cpp:314-616 | the same for the ledger of the cache object itself |
| GraphCaches.CacheBalancedIff | rmw_zenoh_cpp/src/detail/graph_cache.cpp:314-616 | the same equivalence for the changes a cache has gone through, and its ledger |
| TopicMapUpdates.DepartsDisciplined | rmw_zenoh_cpp/src/detail/graph_cache.cpp:503-535 | the departures that a node's end causes are always in order |
| GraphRuns.PutKeepsDisciplined | rmw_zenoh_cpp/src/detail/graph_cache.cpp:314-388 | what an arriving token records is disciplined, when its endpoint is new and its topic uniform |
| GraphRuns.DelKeepsDisciplined | rmw_zenoh_cpp/src/detail/graph_cache.cpp:538-616 | what a disappearing token records is disciplined, when its endpoint is live or it ends a node, leftovers included |
| GraphRuns.ReceiveAll | rmw_zenoh_cpp/src/detail/graph_cache.cpp:314-616 | a cache that receives tokens which follow the discipline stands for the graph they lead to, and has reported to every live local publisher, as PUBLICATION_MATCHED, the number of live subscriptions on its topic name and type, and the mirror; the hypothesis is about the tokens alone |
| GraphRuns.ListNodes | rmw_zenoh_cpp/src/detail/graph_cache.cpp:619-757 | after any run of tokens the names and namespaces listed are exactly those of the nodes that some token announced and no later token ended, and each enclave is the one of the token that announced its node anew, in terms of the parsed entities |
| GraphImbalance.UnknownDeparts | rmw_zenoh_cpp/src/detail/graph_cache.cpp:467-490 | three tokens to a new cache: a local publisher, its subscription, and the end of a subscription never announced; the count is then wrong |
| GraphImbalance.AnnouncedTwice | rmw_zenoh_cpp/src/detail/graph_cache.cpp:170-179 | a local publisher and its subscription announced twice; the count is then wrong |
| GraphImbalance.TwoBuckets | rmw_zenoh_cpp/src/detail/graph_cache.cpp:235-269 | two subscriptions of different QoS and then a local publisher; its count is then wrong |
| GraphImbalance.TwoTypeHashes | rmw_zenoh_cpp/src/detail/graph_cache.cpp:227-233 | a local publisher and a subscription with another type hash; the count is then wrong |
| GraphImbalance.TheyExist | rmw_zenoh_cpp/src/detail/liveliness_utils.cpp:435-497 | there are valid entities for each of the four runs |
| TopicMapUpdates.ByHashIff | rmw_zenoh_cpp/src/detail/liveliness_utils.hpp:243-272 | inserting into and erasing from a set whose entities are told apart by hash act on the endpoint itself exactly when no other endpoint there has its hash |
| TopicMapUpdates.UpdateTopicMapForPut | rmw_zenoh_cpp/src/detail/graph_cache.cpp:127-198 | all four branches add exactly the endpoint to the index and report exactly what an arrival reports |
| TopicMapUpdates.UpdateTopicMapForDel | rmw_zenoh_cpp/src/detail/graph_cache.cpp:421-500 | all branches remove exactly the endpoint; a report is made exactly when its bucket exists |
| TopicMapUpdates.RemoveTopicMapFromCache | rmw_zenoh_cpp/src/detail/graph_cache.cpp:503-535 | the nested loops make every endpoint of a node leave the index of the graph, once each and with its reports |
| GraphSpec.EnclavesAreTold | rmw_zenoh_cpp/src/detail/graph_cache.cpp:81-92 | a node that a run leaves has the enclave of the token that made it known: the first one since it was last ended |
| GraphSpec.NodesAreIntroduced | rmw_zenoh_cpp/src/detail/graph_cache.cpp:314-388 | a run leads to exactly the nodes whose name, namespace and ids some token gave and no later token ended |
| GraphSpec.EndpointsComeFromPuts | rmw_zenoh_cpp/src/detail/graph_cache.cpp:314-388 | every endpoint has the entity of some arriving token |
| GraphSpec.OrderTolerance | rmw_zenoh_cpp/src/detail/rmw_context_impl_s.cpp:250-321 | runs that agree on the tokens of each node reach the same graph, however the nodes interleave |
| GraphSpec.DifferentNodesCommute | rmw_zenoh_cpp/src/detail/graph_cache.cpp:314-388 | tokens of different nodes commute |
| GraphSpec.RepeatedPutIsIdle | rmw_zenoh_cpp/src/detail/rmw_context_impl_s.cpp:250-321 | a token received again changes nothing unless its node ended, or the very same endpoint departed, meanwhile |
| GraphSpec.NodeEndsInAnyOrder | rmw_zenoh_cpp/src/detail/graph_cache.cpp:538-616 | any order and selection of a node's delete tokens that includes its own leaves neither the node nor its endpoints, and all else |
| GraphNodes.NodeInserted | rmw_zenoh_cpp/src/detail/graph_cache.cpp:334-383 | filing a new node keeps every namespace non-empty and every node listed once, and adds one to the count |
| GraphNodes.NodeErased | rmw_zenoh_cpp/src/detail/graph_cache.cpp:603-610 | erasing a node, and an emptied namespace, removes exactly that node |
| GraphNodes.Locate | rmw_zenoh_cpp/src/detail/graph_cache.cpp:352-362 | the search by name and ids succeeds exactly for known nodes |
| GraphCaches.GraphCache.constructor | rmw_zenoh_cpp/src/detail/graph_cache.cpp:74-78 | an empty cache stands for the empty graph |
| GraphCaches.GraphCache.ParsePut | rmw_zenoh_cpp/src/detail/graph_cache.cpp:314-388 | index refinement: the cache stands for the graph the token leads to, per-node maps and both global indexes included; rejected, ignored and throwing tokens change nothing |
| GraphCaches.GraphCache.ParseDel | rmw_zenoh_cpp/src/detail/graph_cache.cpp:538-616 | the same for disappearing tokens, including nodes with leftovers and unknown nodes |
| GraphCaches.IndexIsUnion | rmw_zenoh_cpp/src/detail/graph_cache.cpp:94-124 | after every token the indexes of topics and of services are exactly the union of the maps of all nodes |
| GraphCaches.GraphCache.UpdateTopicMapsForPut | rmw_zenoh_cpp/src/detail/graph_cache.cpp:94-124 | node map and graph index receive the endpoint together |
| GraphCaches.GraphCache.UpdateTopicMapsForDel | rmw_zenoh_cpp/src/detail/graph_cache.cpp:391-418 | node map and graph index lose the endpoint together |
| GraphCaches.GraphCache.RemoveLeftovers | rmw_zenoh_cpp/src/detail/graph_cache.cpp:580-602 | a departing node takes all endpoints it still has out of the indexes, with their reports |
| GraphCaches.GraphCache.GetNodeNames | rmw_zenoh_cpp/src/detail/graph_cache.cpp:619-757 | the slots counted by `total_nodes_in_graph_` receive every live node exactly once, with the enclave told by the token that made it known |
| GraphCaches.PlaceOfGenuine | rmw_zenoh_cpp/src/detail/graph_cache.cpp:127-198 | an endpoint is filed under the name, type and QoS its own entity has |
| GraphCaches.GraphCache.CountPublishers | rmw_zenoh_cpp/src/detail/graph_cache.cpp:903-921 | the count is that of the live publishers on the topic |
| GraphCaches.GraphCache.CountSubscriptions | rmw_zenoh_cpp/src/detail/graph_cache.cpp:924-942 | the count is that of the live subscriptions on the topic |
| GraphCaches.GraphCache.CountServices | rmw_zenoh_cpp/src/detail/graph_cache.cpp:945-963 | the count is that of the live servers of the service |
| GraphCaches.GraphCache.CountClients | rmw_zenoh_cpp/src/detail/graph_cache.cpp:966-984 | the count is that of the live clients of the service |
| GraphCaches.GraphCache.CountMatchedPeers | rmw_zenoh_cpp/src/detail/graph_cache.cpp:823-888 | the count is that of the live peers whose own QoS is compatible |
| GraphCaches.GraphCache.ServiceServerIsAvailable | rmw_zenoh_cpp/src/detail/graph_cache.cpp:1262-1283 | available exactly when a live server has the client's name and type |
| EventManagers.DataCallbackManager.SetCallback | rmw_zenoh_cpp/src/detail/event.cpp:70-87 | delivered plus unread equals triggers; a new callback learns of all that waited |
| EventManagers.DataCallbackManager.Trigger | rmw_zenoh_cpp/src/detail/event.cpp:90-99 | one more trigger, told or kept |
| EventManagers.EventsManager.UpdateStatus | rmw_zenoh_cpp/src/detail/event.cpp:172-197 | all four counters keep telling the changes so far, with `size_t` wrap-around, and the callback is told or the backlog grows |
| EventManagers.EventsManager.TakeStatus | rmw_zenoh_cpp/src/detail/event.cpp:151-169 | the status taken tells exactly what changed since the last take |
| EventManagers.EventsManager.SetCallback | rmw_zenoh_cpp/src/detail/event.cpp:102-127 | a callback receives the backlog once |
| EventManagers.TakenAndPending | rmw_zenoh_cpp/src/detail/event.cpp:151-197 | what a manager's takes have returned, with what its status holds, is the total of the changes it was given, for the current and for the total count |
| Services.ServiceData.AddNewQuery | rmw_zenoh_cpp/src/detail/rmw_service_data.cpp:240-273 | keep-last: the oldest goes when the queue is full, the queue stays the latest arrivals, every arrival is told |
| Services.ServiceData.TakeRequest | rmw_zenoh_cpp/src/detail/rmw_service_data.cpp:276-371 | the oldest query is handed out and becomes pending under its own client and number, or is dropped with an error, in exactly the stated cases |
| Services.ServiceData.SendResponse | rmw_zenoh_cpp/src/detail/rmw_service_data.cpp:374-471 | the reply goes to the query pending under that client and number, which leaves the index whatever happens then |
| Services.RequestsCounted | rmw_zenoh_cpp/src/detail/rmw_service_data.cpp:240-471 | in every state queued, pending, answered and dropped queries add up to those received, each answered by one reply |
| Services.ReplyReachesItsClient | rmw_zenoh_cpp/src/detail/rmw_service_data.cpp:374-408 | where the hash separates clients, a reply goes to a query with its client and number |
| Services.WithoutOk | rmw_zenoh_cpp/src/detail/rmw_service_data.cpp:403-408 | erasing a pending query erases it alone and keeps no empty per-client map |
| Subscriptions.SubscriptionData.AddNewMessage | rmw_zenoh_cpp/src/detail/rmw_subscription_data.cpp:497-556 | the queue stays the latest arrivals within the depth, the loss reports stay the function of what arrived, and no other event changes |
| Subscriptions.SubscriptionData.TakeOneMessage | rmw_zenoh_cpp/src/detail/rmw_subscription_data.cpp:383-438 | messages come out in the order of arrival; one that does not decode is lost with an error; reception numbers count up |
| Subscriptions.SubscriptionData.TakeSerializedMessage | rmw_zenoh_cpp/src/detail/rmw_subscription_data.cpp:441-494 | the same without decoding |
| Subscriptions.SubscriptionData.TakeSequence | rmw_zenoh_cpp/src/rmw_zenoh.cpp:1266-1293 | the longest decodable run from the front of the queue, at most `count`, and where it stopped |
| Subscriptions.OfMarks | rmw_zenoh_cpp/src/detail/rmw_subscription_data.cpp:526-545 | the numbers filed under a publisher's hash are those of its own messages, where the hash tells publishers apart |
| Subscriptions.LossByPublisher | rmw_zenoh_cpp/src/detail/rmw_subscription_data.cpp:526-545 | the losses a subscription has reported are the sum over its publishers, each by its own numbers alone |
| Subscriptions.LossExactIff | rmw_zenoh_cpp/src/detail/rmw_subscription_data.cpp:526-545 | they are what order-preserving channels dropped if and only if each publisher's numbers arrived increasing |
| LostMessages.ReportedExactIff | rmw_zenoh_cpp/src/detail/rmw_subscription_data.cpp:526-545 | for one publisher the losses reported equal those of an order-preserving channel if and only if numbers arrive increasing, else exceed them |
| LostMessages.ClampedExactIff | rmw_zenoh_cpp/src/detail/rmw_subscription_data.cpp:526-545 | for one publisher with increasing numbers the reports equal the losses if and only if each gap fits 32 bits, else fall short of them |
| LostMessages.TotalByPublisher | rmw_zenoh_cpp/src/detail/rmw_subscription_data.cpp:526-545 | for any interleaving the total is the sum over publishers |
| LostMessages.LostTotalExactIff | rmw_zenoh_cpp/src/detail/rmw_subscription_data.cpp:526-545 | the total reported is the sum of (last - first + 1 - received) if and only if every publisher's numbers arrive increasing, when gaps fit 32 bits |
| LostMessages.ClampedTotalExactIff | rmw_zenoh_cpp/src/detail/rmw_subscription_data.cpp:526-545 | when every publisher's numbers arrive increasing, the total is exact if and only if every gap fits 32 bits |
| Clients.ClientData.AddNewReply | rmw_zenoh_cpp/src/detail/rmw_client_data.cpp:234-260 | the reply queue stays the latest arrivals within the depth |
| Clients.ClientData.TakeResponse | rmw_zenoh_cpp/src/detail/rmw_client_data.cpp:263-338 | replies come out in order, with the header of their attachment or an error |
| Clients.ClientData.SendRequest | rmw_zenoh_cpp/src/detail/rmw_client_data.cpp:341-471 | a serialized request gets a number above all earlier ones |
| BufferPools.BufferPool.Allocate | rmw_zenoh_cpp/src/detail/zenoh_utils.cpp:176-213 | case by case what is returned, counted and lost: a pooled buffer that is large enough, a new one, one that grew, or nothing; the bound is kept, buffers stay apart, and the account of pooled, handed-out and lost bytes is right if and only if size and growth stay in range or the growth is not counted |
| BufferPools.ReturnedServesNext | rmw_zenoh_cpp/src/detail/zenoh_utils.cpp:195-220 | a returned buffer serves the next request it can hold: the same memory, and nothing new counted |
| BufferPools.WrappedRequest | rmw_zenoh_cpp/src/detail/zenoh_utils.cpp:182-194 | two requests that add up to the range of `size_t` are both served, and the account is wrong |
| BufferPools.BufferPool.Deallocate | rmw_zenoh_cpp/src/detail/zenoh_utils.cpp:216-220 | a returned buffer is pooled, no longer handed out, and the account stands |
| BufferPools.ReturnKeepsSeparate | rmw_zenoh_cpp/src/detail/zenoh_utils.cpp:216-220 | no buffer is both pooled and handed out after a return |
| Words.Mult64to128 | rmw_zenoh_cpp/src/detail/simplified_xxhash3.cpp:208-224 | low + 2^64 * high is the exact product, with no overflow on the way |
| Words.HighAddsAgree | rmw_zenoh_cpp/src/detail/simplified_xxhash3.cpp:308-343 | the branches for 32-bit and 64-bit machines add the same word |
| Xxh3Code.AssembleLE64 | rmw_zenoh_cpp/src/detail/simplified_xxhash3.cpp:105-116 | shifting bytes into place gives the little-endian number |
| Xxh3Spec.SwapReverses | rmw_zenoh_cpp/src/detail/simplified_xxhash3.cpp:356-362 | swapping a 32-bit word is reading its bytes in the other direction |
| Xxh3Spec.Swap64Reverses | rmw_zenoh_cpp/src/detail/simplified_xxhash3.cpp:276-286 | swapping a 64-bit word is reading its eight bytes in the other direction |
| Xxh3Spec.RotlMovesBits | rmw_zenoh_cpp/src/detail/simplified_xxhash3.cpp:394-397 | rotating by 13 makes the high 13 bits the low ones and moves the others up |
| Xxh3Code.HashLen9to16 | rmw_zenoh_cpp/src/detail/simplified_xxhash3.cpp:288-354 | both branches give the specified value and all bytes are read |
| Xxh3Code.HashLen17to128 | rmw_zenoh_cpp/src/detail/simplified_xxhash3.cpp:472-494 | the nested cases are the specified rounds, last first, and all bytes are read |
| Xxh3Code.HashLen129to240 | rmw_zenoh_cpp/src/detail/simplified_xxhash3.cpp:496-535 | the two loops and the last mix are the specified rounds, and all bytes are read |
| Xxh3Code.RoundGoesOn | rmw_zenoh_cpp/src/detail/simplified_xxhash3.cpp:128-145 | one in-place lane update after another leads to the lanes changed all at once |
| Xxh3Code.Accumulate512 | rmw_zenoh_cpp/src/detail/simplified_xxhash3.cpp:139-145 | a stripe gives every lane its neighbour's data and its own product, in place |
| Xxh3Code.HashLongLoop | rmw_zenoh_cpp/src/detail/simplified_xxhash3.cpp:184-206 | blocks, last stripes and final stripe compute the specified lanes and cover the input |
| Xxh3Code.LongCover | rmw_zenoh_cpp/src/detail/simplified_xxhash3.cpp:184-206 | for every length the block and stripe arithmetic stays in bounds and leaves no byte out |
| Xxh3Code.Hash | rmw_zenoh_cpp/src/detail/simplified_xxhash3.cpp:433-549 | for every length the value is the specified one and the bytes read are exactly those of the input |
| Xxh3Machine.MachineMeans | rmw_zenoh_cpp/src/detail/simplified_xxhash3.cpp:208-230 | the operations the hash is built from, in integers: sums and products wrapped, of the low halves, exact in two words and folded by xor, and the long product added to a high word |
| Xxh3Machine.Simplified128bits | rmw_zenoh_cpp/src/detail/simplified_xxhash3.cpp:537-549 | the same with the machine's operations and the 192-byte secret |

## Left out

- WaitProtocol: memory is sequentially consistent; one waiter; a timeout is a step that may happen at any time.
- UntimedWaits.TimesOutIff: about runs without takers during the call, as the code allows others.
- GuardConditions.WaitZero: only the guard-condition array and only a zero timeout; blocking, other threads and the other four arrays are in the step system.
- Set identity in the graph cache is by `gid_hash`. The model's sets insert and erase by hash too, but the results are about endpoints, so `ParsePut` asks that the hash of the endpoint be that of no other live one, and `ParseDel` the same when its node is known.
- GraphCaches.GraphCache.GetNodeNames: the enclaves are always asked for; argument checks and failed allocations are not modelled.
- GraphCaches.GraphCache.ParsePut: graph nodes are values in a list per namespace, not shared objects in a multimap; the name order of the multimap and its error log are not modelled.
- MatchedEvents.HandleForPut: match counts are unbounded integers, except that a set beyond the range of `int32_t` counts as empty, as in the code.
- MatchedCounts.BalancedThroughoutIff: about runs in which a new local endpoint is new in the run, as entity ids are not reused, and match counts fit `int32_t`.
- QosEvents.EventLedger.UpdateCounters: stored changes are unbounded integers; callbacks do nothing to the cache.
- Endpoint information (`get_entities_info_by_*`) and names-and-types queries: listings that add no harder property; the type hash reported there is that of the entity that made the bucket.
- Decimal.Stoul: decimal digit strings only; leading blanks and signs, which `strtoul` and `stoul` accept, are not modelled.
- `avoid_ros_namespace_conventions` is not carried by the QoS text.
- EventManagers.EventsManager.UpdateStatus: the signed 32-bit change count is an unbounded integer; backlogs are unbounded.
- EventManagers.EventsManager: attaching and notifying a wait set are steps of `WaitProtocol`.
- Services.ServiceData.TakeRequest: fields of the request header that were already written when an error is found.
- Services.ServiceData.Shutdown: only the flag; undeclaring tokens and queryables belongs to the Zenoh library.
- Subscriptions.SubscriptionData.AddNewMessage: sequence numbers are such that their difference fits 64 bits; `reception_sn_` does not wrap.
- BufferPools.BufferPool: reading the maximum from the environment, and freeing the pool at destruction.
- Xxh3Code.HashLongLoop: `|` of words without common bits is written as addition, and masks as remainders.
- Collision resistance of any hash.
- Zenoh sessions, publishers, queriers and queryables, CDR serialization, type support, attachment encoding, configuration, logging, security tools and allocation failures outside the pool and the response path.
