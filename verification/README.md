# A verified model of nri-kafka

nri-kafka is the New Relic infrastructure integration for Apache Kafka. It collects consumer-group lag, topic and
partition data, and JMX metrics of brokers, consumers and producers, with many goroutines talking over channels. This
project models the parts of it in which something can go wrong between goroutines or between strings, and proves what
they promise.

**Consumer-group lag** (`LagJobs`, `LagPlan`, `LagPipeline`, `LagAggregates`, `LagTotals`, `LagReport`, `OffsetCache`,
`SharedLookups`). `LagPlan` spawns one job per (topic, partition). `LagPipeline` is the concurrent collection as a
step machine under an arbitrary scheduler: partition goroutines, two bounded channels of any positive capacity, three
wait groups, two closers, two aggregators. `LagAggregates` holds the receive loops; `LagReport` puts the pieces
together and shows that the report is a pure fold over the successful lookups, whatever the schedule. `SharedLookups`
runs the lookups of any number of groups through the one offset cache they share.

**Partition network** (`PartitionNetwork`, `CollectionOrder`, `TopicInfo`). Feeder, shared channel, any number of
workers, one output channel and one forwarder per worker, a collecting channel and the collector, with the staged
closing order. `CollectionOrder` determines which partition can arrive first.

**JMX pools** (`JmxPools`, `CoreCollection`, `PermitNeeds`, `ProcessExits`, `JmxProvider`). Worker pools on unbuffered
channels, their feeders and the main goroutine share one counting semaphore, for any well-formed set of pools.
`CoreCollection` shows that the start-up order of the integration is such a set, whatever its settings; `PermitNeeds` says
exactly when the permits suffice and `ProcessExits` exactly when a lost connection ends the process.

**Names and selection** (`BeanNames`, `MetricLookup`, `RequestRates`, `TopicBuckets`, `Endpoints`, `ClientIds`).
Placeholder substitution in MBean templates, the metric index, the request-rate rollup, the sharing of topics among
instances, and the small parsers.

`Wrappers`, `Int64`, `Decimal`, `Strings` and `Sums` are shared helpers. Calls to Kafka, JMX and Zookeeper and writes
into a sample are oracles: their answers are inputs that may succeed or fail. `os.Exit` is a terminal state. Verify
with `dafny verify dfyconfig.toml`.

## Where the code does not meet the obvious property

Each of these is kept as the code has it; a lemma gives an input and another the exact condition.

- A failed lookup of a topic with the empty name still sends a zero result (`LagJobs.PhantomExample`,
  `LagReport.ReceivesSuccessesIff`).
- The offset cache remembers the value of a failed query and later returns it without an error
  (`OffsetCache.FailureIsCached`, `OffsetCache.CacheTransparentIff`).
- Substituting client and topic one after the other is not simultaneous substitution when a topic placeholder is followed
  by the client word and another placeholder (`BeanNames.UncleanExample`, `BeanNames.SequentialIsSimultaneousIff`).
- The partition feeder sends list positions, not the ids that the client returned
  (`PartitionNetwork.FeedsUnlistedPartition`, `PartitionNetwork.FeedsClientIdsIff`).
- The replication factor is that of the partition that happened to arrive first: two complete runs over the same answers
  can record different factors (`TopicInfo.FactorDependsOnSchedule`, `TopicInfo.FactorIndependentIff`).
- A failed offset query fails for whoever asks first, so that two groups that read the same partition depend on the order
  of their lookups (`SharedLookups.GroupsCompete`, `SharedLookups.OrderIrrelevantIff`).
- A reply that files another topic's partitions makes a partition count twice (`LagPlan.UnlimitedReplyCountsTwice`,
  `LagPlan.CountedOnceIff`).
- A client or topic name that contains `,topic=` shares its metric keys with another pair (`BeanNames.CommaCollision`,
  `BeanNames.SharesKeyIff`).
- A client name that contains `%TOPIC%` is itself rewritten by the second pass: the client `%TOPIC%` and the client `t`
  share all their keys for the topic `t` (`BeanNames.PlaceholderCollision`, `BeanNames.ShippedKeyNamesClientIff`,
  `BeanNames.SharesWithAnyIff`).
- 64-bit totals can wrap, so that a maximum exceeds its total (`LagTotals.TotalMayWrap`, `LagTotals.MaximumBelowTotalIff`).
- The app-info extractor takes `client-id=x` for the `id` field (`ClientIds.ClientIdTakenForId`,
  `ClientIds.FindsPropertyIff`, `ClientIds.AlwaysFindsPropertyIff`).
- The bucket argument is matched anywhere in the text, so that `-1/3` means `1/3` (`TopicBuckets.SignIsIgnored`,
  `TopicBuckets.AcceptedIff`).
- With a connection limit below 1 the collection waits for ever as soon as anything needs a connection
  (`PermitNeeds.StuckWithoutPermits`, `PermitNeeds.NeverStuckIff`, `PermitNeeds.CoreNeverStuckIff`).

## Model

| member | source | states |
|---|---|---|
| LagPipeline.StepKeepsInv | src/consumeroffset/kafka_offset_collect.go:72-138 | every step of every goroutine keeps the invariant that ties wait groups, channels and messages together |
| LagPipeline.WaitGroupsCount | src/consumeroffset/kafka_offset_collect.go:79-100 | in every reachable state each wait-group counter equals the number of unfinished senders it covers, spawned or not, and a closed channel has none |
| LagPipeline.NeverPanics | src/consumeroffset/kafka_offset_collect.go:79-138 | no schedule sends on a closed channel, closes one twice or takes a wait group below zero |
| LagPipeline.EnabledStep | src/consumeroffset/kafka_offset_collect.go:79-138 | with any positive channel capacity some goroutine can move until the main goroutine has returned |
| LagPipeline.StuckIffReturned | src/consumeroffset/kafka_offset_collect.go:106-138 | a reachable state in which nothing can move is one in which the main goroutine has returned, and conversely |
| LagPipeline.ReturnedIsQuiet | src/consumeroffset/kafka_offset_collect.go:110-138 | when the results wait group is released, all goroutines have ended and both channels are closed and drained |
| LagPipeline.StepLowersRank | src/consumeroffset/kafka_offset_collect.go:72-138 | every step lowers a weighted measure, although an active goroutine sends twice before it signs off |
| LagPipeline.EveryRunEnds | src/consumeroffset/kafka_offset_collect.go:72-138 | no schedule is longer than ten steps per task and sixteen more |
| LagPipeline.CompletionExists | src/consumeroffset/kafka_offset_collect.go:72-138 | from every state that satisfies the invariant some schedule completes the run |
| LagPipeline.CompleteRunDelivers | src/consumeroffset/kafka_offset_collect.go:97-138 | each aggregator has received exactly the messages sent to it, each once |
| LagJobs.CollectClientPartitionOffset | src/consumeroffset/kafka_offset_collect.go:140-220 | the result is the lag of a successful lookup, else the zero value; the lag wraps at 64 bits |
| LagJobs.SentIffSuccessful | src/consumeroffset/kafka_offset_collect.go:86-100 | exactly the successful lookups are sent, with high-water mark minus committed offset as the lag and only an assigned job naming a client, if and only if the job is not a failed lookup of the empty topic name |
| LagJobs.ActiveMessage | src/consumeroffset/kafka_offset_collect.go:86-100 | in numbers: what an assigned job sends for every high-water mark, committed offset and entity answer |
| LagJobs.InactiveMessage | src/consumeroffset/kafka_offset_collect.go:254-270 | in numbers: what an unassigned job sends, with no client and the high-water mark minus the committed offset |
| LagJobs.CollectInactivePartitionOffset | src/consumeroffset/kafka_offset_collect.go:254-270 | the checks of an unassigned goroutine in order give that message |
| LagJobs.PhantomExample | src/consumeroffset/kafka_offset_collect.go:97-100 | a failed lookup of the empty topic name sends a zero result |
| LagReport.CompleteRunReports | src/consumeroffset/kafka_offset_collect.go:110-122 | after any complete run both reports are those of the jobs' messages taken in job order |
| LagReport.ReportIsScheduleIndependent | src/consumeroffset/kafka_offset_collect.go:72-122 | two complete runs over the same jobs report the same, whatever the spawning order, the schedules and the capacities |
| LagReport.ReceivesSuccessesIff | src/consumeroffset/kafka_offset_collect.go:86-101 | the aggregators receive exactly the successful lags, each once, if and only if no lookup of an empty topic name failed |
| LagReport.ReportIsFoldOfSuccesses | src/consumeroffset/kafka_offset_collect.go:72-122 | for named topics the report is the fold of the successful lookups |
| LagReport.GroupTotalSplits | src/consumeroffset/kafka_offset_collect.go:110-122 | after any complete run group total = sum of the clients' totals + sum over the unassigned topics, in 64-bit arithmetic |
| LagReport.PlannedCollectionReports | src/consumeroffset/kafka_offset_collect.go:34-122 | from the replies to the report, under every schedule: fold of the successful lookups, split of the group total, and no partition twice for disjoint member assignments and replies limited to what was asked for |
| LagAggregates.ClientMetricsAggregator.WaitAndAggregateMetrics | src/consumeroffset/client_metrics_aggregator.go:23-36 | after any delivery the map is the order-free rollup per client of everything received so far |
| LagAggregates.CGroupMetricsAggregator.WaitAndAggregateMetrics | src/consumeroffset/cgroup_metrics_aggregator.go:44-89 | after any delivery the six rollups are the order-free ones of everything received so far |
| LagAggregates.CGroupAppend | src/consumeroffset/cgroup_metrics_aggregator.go:58-87 | one message changes the order-free rollups exactly as one round of the receive loop does |
| LagAggregates.ClientReportFold | src/consumeroffset/client_metrics_aggregator.go:27-33 | in fields: one message adds its lag to its client's entry, which starts at 0, in 64-bit arithmetic |
| LagAggregates.GroupReportFold | src/consumeroffset/cgroup_metrics_aggregator.go:58-69 | in fields: what one message does to its group's total, maximum and active clients |
| LagAggregates.TopicReportFold | src/consumeroffset/cgroup_metrics_aggregator.go:70-87 | in fields: the same for its topic when reports by topic are wanted, and nothing otherwise |
| LagAggregates.PeakIsMaximum | src/consumeroffset/cgroup_metrics_aggregator.go:61-64 | the stored maximum is the maximum of 0 and all lags of the key, and is attained when positive |
| LagAggregates.ReportsIgnoreOrder | src/consumeroffset/cgroup_metrics_aggregator.go:48-88 | permuted messages give equal client, group and topic reports |
| LagTotals.RollupTotal | src/consumeroffset/cgroup_metrics_aggregator.go:58-73 | the entries of a rollup by any key add up to the total lag, in 64-bit arithmetic |
| LagTotals.GroupTotal | src/consumeroffset/cgroup_metrics_aggregator.go:58-73 | group total = sum of topic totals = sum of client totals, in 64-bit arithmetic |
| LagTotals.GroupMaximum | src/consumeroffset/cgroup_metrics_aggregator.go:61-78 | group maximum = max(0, all lags) = maximum over the topics' maxima, a missing entry read as 0 |
| LagTotals.GroupActiveClients | src/consumeroffset/cgroup_metrics_aggregator.go:66-86 | the group's active clients are the union of its topics' active clients |
| LagTotals.MaximumBelowTotalIff | src/consumeroffset/cgroup_metrics_aggregator.go:58-78 | with non-negative lags no maximum exceeds its total at any point of the aggregation, if and only if the exact total fits 64 bits |
| LagTotals.FittingTotal | src/consumeroffset/cgroup_metrics_aggregator.go:58-78 | for the reported values that condition is sufficient |
| LagTotals.TotalMayWrap | src/consumeroffset/cgroup_metrics_aggregator.go:58-64 | two maximal lags give a negative total |
| LagPlan.SpawnConsumerGroup | src/consumeroffset/kafka_offset_collect.go:50-108 | the jobs spawned, in order; a job is spawned if and only if it has the fields of a block of a member's reply and that member's client, or of a block of the reply to a listed topic that is not excluded |
| LagPlan.SpawnTopics | src/consumeroffset/kafka_offset_collect.go:72-103 | one job per block of a member's reply, with the block's fields, the topic and the member's client, and all topics of the reply join the exclusions |
| LagPlan.SpawnInactive | src/consumeroffset/kafka_offset_collect.go:236-274 | one job per block of every listed topic that is not excluded |
| LagPlan.PlannedIff | src/consumeroffset/kafka_offset_collect.go:54-108 | looked up are exactly the blocks of the members' replies, for that member's client, and the blocks of the replies to listed topics that are neither internal nor in a member's reply, field by field |
| LagPlan.ActivePlannedIff | src/consumeroffset/kafka_offset_collect.go:72-103 | an active job is planned if and only if its group, client, topic, partition, offset, high-water mark and entity answer are those of one member, one topic of its reply and one block |
| LagPlan.InactivePlannedIff | src/consumeroffset/kafka_offset_collect.go:236-274 | an inactive job is planned if and only if its fields are those of one block of the reply to one listed topic that is not `__consumer_offsets`, `_schema` or in a member's reply |
| LagPlan.PathsDisjoint | src/consumeroffset/kafka_offset_collect.go:50-108 | active and inactive jobs never share a topic, and internal topics are never collected as inactive |
| LagPlan.AssignedKeysDistinct | src/consumeroffset/kafka_offset_collect.go:54-103 | with disjoint member assignments and replies limited to them, no (topic, partition) has two active jobs |
| LagPlan.NothingCountedTwice | src/consumeroffset/kafka_offset_collect.go:50-108 | with disjoint member assignments and replies limited to the requests, no (topic, partition) is looked up twice |
| LagPlan.ActiveOnceIff | src/consumeroffset/kafka_offset_collect.go:72-103 | replies being maps, no (topic, partition) has two active jobs if and only if no two members' replies name the same one |
| LagPlan.CountedOnceIff | src/consumeroffset/kafka_offset_collect.go:50-108 | nothing is looked up twice if and only if no two members' replies name the same (topic, partition) and, for every listed topic that is not left out, all partition maps of its reply together name no partition twice |
| LagPlan.UnlimitedReplyCountsTwice | src/consumeroffset/kafka_offset_collect.go:248-250 | a reply that also files another topic's partitions makes a partition count twice |
| OffsetCache.CachedOffset | src/consumeroffset/topic_offset_getter.go:40-54 | on the nested maps, a call is one step of the memo on (kind, topic, partition) |
| OffsetCache.SaramaTopicOffsetGetter.GetFromTopicPartition | src/consumeroffset/topic_offset_getter.go:31-33 | the object's state and replies stay those of the memo over the whole call history, newest kind |
| OffsetCache.SaramaTopicOffsetGetter.GetEarliestFromTopicPartition | src/consumeroffset/topic_offset_getter.go:36-38 | the object's state and replies stay those of the memo over the whole call history, oldest kind |
| OffsetCache.AskedExactlyOnce | src/consumeroffset/topic_offset_getter.go:45-51 | over any sequence of calls the client is asked exactly at the first call of each (kind, topic, partition) |
| OffsetCache.LaterCallIsServed | src/consumeroffset/topic_offset_getter.go:49-53 | a later call gets the first answer's value without an error |
| OffsetCache.CacheTransparentIff | src/consumeroffset/topic_offset_getter.go:49-53 | a later reply repeats the first one if and only if the first query succeeded |
| OffsetCache.DistinctCallsAreTransparent | src/consumeroffset/topic_offset_getter.go:40-54 | when no key is asked for twice, every reply is the client's own answer |
| OffsetCache.FailureIsCached | src/consumeroffset/topic_offset_getter.go:49-53 | the value of a failed query is returned by the next call without an error |
| OffsetCache.KindsIndependent | src/consumeroffset/topic_offset_getter.go:31-38 | newest and oldest lookups never affect each other |
| SharedLookups.OneMoreLookup | src/consumeroffset/topic_offset_getter.go:40-54 | of all jobs that call the cache, of whatever group, the first one to ask for a failing key gets no offset and everybody else gets the value that came with the failure; a job with an expired inactive offset does not call |
| SharedLookups.NextLookup | src/consumeroffset/topic_offset_getter.go:40-54 | in fields: what the next goroutine to call finds, given who has asked for its topic and partition before and whether that query fails |
| SharedLookups.OrderIrrelevantIff | src/consumeroffset/topic_offset_getter.go:40-54 | with the client's answers fixed, what all goroutines of all groups together send on either channel is independent of the order of their calls if and only if the askers of every failing key would send the same there |
| SharedLookups.GroupsCompete | src/consumeroffset/topic_offset_getter.go:49-53 | two groups on one failing partition: the one that asks second reports a lag, in either order |
| SharedLookups.GroupReportsAgree | src/consumeroffset/kafka_offset_collect.go:72-122 | if that holds for both channels, every group's reports per client, per group and per topic are the same for all orders of lookups, schedules and capacities |
| OffsetCache.CAdminConsumerGroupTopicLister.ListTopics | src/consumeroffset/consumer_group_topic_lister.go:24-39 | one call is one step of the memo |
| OffsetCache.MemoHoldsFirstMap | src/consumeroffset/consumer_group_topic_lister.go:28-38 | the memo holds the first map ever received, and is empty exactly until then |
| OffsetCache.ListBeforeFirstMap | src/consumeroffset/consumer_group_topic_lister.go:24-39 | until the first map every call gets the cluster admin's own answer |
| OffsetCache.ListAfterFirstMap | src/consumeroffset/consumer_group_topic_lister.go:24-39 | every call after the first map gets that very map, without an error and without asking |
| OffsetCache.RetryAfterErrorIff | src/consumeroffset/consumer_group_topic_lister.go:28-36 | after a failed call the next one asks again if and only if the failure came without a map, and then passes the answer on |
| PartitionNetwork.StepKeepsInv | src/topic/partition_collection.go:27-159 | every step keeps conservation, channel control and the wait-group counts |
| PartitionNetwork.NothingLostOrDuplicated | src/topic/partition_collection.go:43-159 | in every reachable state each number 0..n-1 is in exactly one place: unfed, in a channel, with a worker or forwarder, collected or dropped |
| PartitionNetwork.NeverPanics | src/topic/partition_collection.go:76-158 | no schedule closes a channel twice, sends on a closed one or takes a wait group below zero |
| PartitionNetwork.NeverStuck | src/topic/partition_collection.go:27-158 | with at least one worker and positive capacities some goroutine can move until the collector has returned |
| PartitionNetwork.StepLowersRank | src/topic/partition_collection.go:27-159 | every step lowers a weighted measure |
| PartitionNetwork.EveryRunEnds | src/topic/partition_collection.go:27-159 | no schedule is longer than twelve steps per partition, seven per worker and eight more |
| PartitionNetwork.CompletionExists | src/topic/partition_collection.go:27-159 | from every state that satisfies the invariant some schedule completes the run |
| PartitionNetwork.ReturnedIsClosed | src/topic/partition_collection.go:76-111 | when the collector returns, every channel is closed and empty and every forwarder gone |
| PartitionNetwork.CollectsExactly | src/topic/partition_collection.go:101-159 | the collected list is a permutation of the partitions whose four lookups succeed |
| PartitionNetwork.CollectedIff | src/topic/partition_collection.go:125-157 | a partition is collected by a complete run, and then once, if and only if its leader, replicas, in-sync and offline replicas are the four answers for its number |
| PartitionNetwork.FeedsClientIdsIff | src/topic/partition_collection.go:46-59 | the numbers fed are the client's ids if and only if those ids cover 0..n-1 |
| PartitionNetwork.FeedsUnlistedPartition | src/topic/partition_collection.go:52-59 | for the single id 7 the number fed is another one |
| TopicInfo.Topic.SetTopicInfo | src/topic/topic_collection.go:262-268 | the recorded list, count and factor; without partitions the factor stays what it was |
| TopicInfo.CalculateNonPreferredLeader | src/topic/topic_collection.go:179-188 | the count is the number of positions whose leader is not the first replica |
| TopicInfo.CalculateUnderReplicatedCount | src/topic/topic_collection.go:190-199 | the count is the number of positions with fewer in-sync replicas than replicas |
| TopicInfo.CountsAreScheduleIndependent | src/topic/topic_collection.go:256-268 | the partition count and both counters are the same under every schedule of the network |
| CollectionOrder.StepKeepsOrder | src/topic/partition_collection.go:27-159 | every step keeps the order: each worker, its channel and its forwarder hold increasing numbers, all below the next one to be taken |
| CollectionOrder.CanComeFirst | src/topic/partition_collection.go:27-159 | a schedule that makes a given answered partition the first one collected, whenever the other units can hold all answered ones before it |
| CollectionOrder.ComesWithin | src/topic/partition_collection.go:27-159 | in no complete run does the first collected partition overtake more answered ones than the other units can hold |
| CollectionOrder.ComesFirstIff | src/topic/partition_collection.go:27-159 | for any pool size and capacities, the partitions that can be collected first are exactly the first (workers - 1) * (capacity + 2) + 1 answered ones |
| TopicInfo.FactorIndependentIff | src/topic/topic_collection.go:256-268 | all complete runs record the same factor if and only if the partitions that can be collected first have as many replicas |
| TopicInfo.FactorDependsOnSchedule | src/topic/topic_collection.go:266-268 | two complete runs over the same answers, with two workers and two partitions, that record the factors 1 and 2 |
| TopicInfo.OneWorkerFixesFactor | src/topic/topic_collection.go:256-268 | with one worker all complete runs record the same factor |
| TopicInfo.AmpleWorkersIff | src/topic/topic_collection.go:256-268 | when the other units can hold all answered partitions but one, the factor is fixed if and only if all answered partitions have as many replicas |
| TopicInfo.FactorIsScheduleIndependent | src/topic/topic_collection.go:258-268 | with uniform replica counts every schedule records the same factor |
| JmxPools.StepKeepsInv | src/broker/broker_collection.go:23-88 | every step of workers, feeders and main goroutine keeps permits, hosts and the wait group in balance |
| JmxPools.LimitRespected | src/connection/jmx.go:45-62 | in every reachable state free + held permits = the limit, acquires not yet released are held permits, and open connections never exceed the limit (none are open when it is negative) |
| JmxPools.EachHostOnce | src/broker/broker_collection.go:43-65 | in every reachable state each listed host is in exactly one place: not handed over, with one worker, or handled |
| JmxPools.NeverPanics | src/connection/jmx.go:51-56 | no schedule releases a permit that nobody holds or takes the wait group below zero |
| JmxPools.NeverStuck | src/client/producer_consumer_collection.go:22-62 | with at least one permit something can move until the main goroutine returns or the process exits |
| PermitNeeds.NeverStuckIff | src/connection/jmx.go:45-62 | for every well-formed set of pools, no run waits for ever if and only if the limit is at least one or nothing needs a connection |
| PermitNeeds.ReturnsOnlyUnneeded | src/kafka.go:277 | with a limit below one the main goroutine returns only if nothing needed a connection |
| PermitNeeds.CoreNeverStuckIff | src/kafka.go:189-278 | the same for the core collection, in terms of its settings and hosts |
| PermitNeeds.StuckWithoutPermits | src/connection/jmx.go:45-46 | the core collection with one consumer and no permits has a run that waits for ever |
| JmxPools.StepLowersRank | src/client/producer_consumer_collection.go:22-75 | every step lowers a weighted measure |
| JmxPools.EveryRunEnds | src/client/producer_consumer_collection.go:22-75 | the length of every schedule is bounded by the configuration |
| JmxPools.AllHandledOnReturn | src/kafka.go:271-278 | when the wait returns every started worker has ended, every listed host was handled exactly once, all permits are back, and one was acquired and released per connection |
| CoreCollection.StartPool | src/broker/broker_collection.go:30-38 | starting a pool of n workers is n starts with consecutive numbers |
| CoreCollection.StartBrokerSide | src/kafka.go:243-268 | the broker workers are started first and nothing is started twice; the main goroutine connects to every broker in order and then once to the controller or else the first broker; brokers are handed out only after all that |
| CoreCollection.CheckControllers | src/kafka.go:305-319 | one connection to every broker of the list, in order |
| CoreCollection.BrokerConnections | src/kafka.go:251-266 | the main goroutine connects to each broker of the list in order and then to the controller's place in the list, or else the first broker; not at all without cluster metrics or brokers |
| CoreCollection.Run | src/kafka.go:189-278 | the whole start-up order, and that a failed preparation leaves the collection without starting anything |
| CoreCollection.CoreIsWellFormed | src/kafka.go:189-278 | whatever the settings, nothing is started twice and every started worker and listed host gets a feeder |
| CoreCollection.CoreCollectionCompletes | src/kafka.go:189-278 | with at least one permit the core collection is never stuck, and on return has handled every broker, topic, consumer and producer host that its settings ask for exactly once, with all permits free |
| ProcessExits.ExitsIff | src/metrics/metrics.go:85-96 | for every well-formed set of pools and every complete run: the process was ended if and only if some listed host, or one that the main goroutine connects to, loses its connection in mid-query; the schedule has no say |
| ProcessExits.CoreExitsIff | src/kafka.go:189-278 | the same for the core collection, in terms of its settings and hosts; the controller count never ends the process |
| ProcessExits.CollectedWasConnected | src/broker/broker_collection.go:69-88 | under every schedule each collected host that is done has been connected to before |
| ProcessExits.ConnectedOpens | src/connection/jmx.go:45-62 | no reachable state has a worker connected to a host that does not open or needs no connection |
| JmxProvider.JMXProvider.NewConnection | src/connection/jmx.go:45-62 | a permit is held afterwards exactly when a connection is returned |
| JmxProvider.JMXConnection.Close | src/connection/jmx.go:86-90 | the permit is given back even if closing fails |
| JmxProvider.CountActiveControllers | src/kafka.go:305-343 | the count is the 64-bit sum of every numeric value attribute, cut off towards zero, of every broker that answered, and no path keeps a permit |
| JmxProvider.OneMoreAttribute | src/kafka.go:325-338 | one more attribute adds its value cut off towards zero if its name ends in `attr=Value` and it is a number, and nothing otherwise |
| JmxProvider.OneMoreBroker | src/kafka.go:305-325 | a broker that cannot be opened or queried adds nothing, any other the count of its attributes |
| JmxProvider.CountIsNumberOfControllers | src/kafka.go:303-343 | with one 0/1 attribute per answering broker the count is the number of brokers that report 1 |
| BeanNames.ReplaceIsMerge | src/metrics/consumer_definitions.go:88-92 | replacing a placeholder in the text is substituting it in the template, for clean templates of percent-free literals |
| BeanNames.SequentialIsSimultaneous | src/metrics/consumer_definitions.go:96-101 | the two passes are simultaneous substitution, for clean templates and percent-free client names |
| BeanNames.SequentialIsSimultaneousIff | src/metrics/producer_definitions.go:171-176 | for percent-free names the two passes are simultaneous substitution if and only if the template is clean |
| BeanNames.UncleanExample | src/metrics/consumer_definitions.go:96-101 | a template of percent-free literals for which the two passes go wrong |
| BeanNames.KeyIsPrefixPlusAttribute | src/metrics/metrics.go:194-197 | for clean templates the looked-up key is the substituted prefix followed by the substituted attribute |
| BeanNames.KeyIsPrefixPlusAttributeIff | src/metrics/metrics.go:194-197 | for any two templates of percent-free literals and any percent-free names, it is so if and only if both together are clean |
| BeanNames.ClientKeys | src/metrics/consumer_definitions.go:87-92 | what the consumer and producer modifiers make of prefixes and attributes that name only the client |
| BeanNames.ShippedKeys | src/metrics/consumer_definitions.go:57-101 | what the consumer and producer topic modifiers make of the shipped prefixes, for every client and topic and every percent-free attribute: the client stands in the key as the second pass rewrites it |
| BeanNames.ShippedTexts | src/metrics/consumer_definitions.go:57-101 | the same with the texts of the consumer and producer templates and of their keys written out |
| BeanNames.ShippedKeyNamesClientIff | src/metrics/consumer_definitions.go:96-101 | the key names the client itself if and only if the client does not contain `%TOPIC%` or the topic is that very text |
| BeanNames.RewrittenSharesIff | src/metrics/producer_definitions.go:171-176 | a client shares its keys with the client it is rewritten to, if and only if that one is not rewritten again |
| BeanNames.PlaceholderCollision | src/metrics/consumer_definitions.go:96-101 | the client `%TOPIC%` and the client `t` share all their keys for the topic `t` |
| BeanNames.TopicKeysInjectiveIff | src/metrics/broker_definitions.go:328-333 | two topics give the same name or key from a template if and only if they are equal or the template does not mention the topic |
| BeanNames.TopicKeysDetermine | src/metrics/producer_definitions.go:150-176 | a topic key whose names have no topic field of their own determines client, topic and attribute |
| BeanNames.SharesKeyIff | src/metrics/producer_definitions.go:150-176 | among clients without `%TOPIC%`, and for all topics: a client and a topic share their keys with another pair, or another comma-free attribute, if and only if `,topic=` occurs in the client, or in the topic with no `%TOPIC%` before it |
| BeanNames.SharesWithAnyIff | src/metrics/producer_definitions.go:150-176 | against all clients, for names without `%TOPIC%`: the keys are shared if and only if `,topic=` occurs in one of the names or the topic occurs in the client (not right after `%TOPIC`) |
| BeanNames.CommaFreeKeysUnique | src/metrics/consumer_definitions.go:57-101 | names without a comma, the client without `%TOPIC%`, share their keys with no other client without `%TOPIC%` |
| BeanNames.CommaCollision | src/metrics/consumer_definitions.go:61-101 | two different (client, topic) pairs that share all their keys |
| MetricLookup.IndexByName | src/metrics/metrics.go:182-189 | the index by name answers exactly like a scan for the last response without error |
| MetricLookup.CollectMetricDefinitions | src/metrics/metrics.go:160-211 | sample and not-found list are those of the scan, in order, up to the query at which the connection is lost |
| MetricLookup.LastMatchIsLast | src/metrics/metrics.go:182-198 | the scan's value is that of the last response without error that has exactly the key |
| MetricLookup.LastMatchNoneIff | src/metrics/metrics.go:182-198 | the scan finds nothing if and only if every response with the key is an error |
| MetricLookup.LastDefinitionWins | src/metrics/metrics.go:193-204 | the last definition that writes a metric name decides its value: the last good response with its exact key |
| MetricLookup.LastWriteExists | src/metrics/metrics.go:193-204 | whenever a name is written there is a definition that writes it last |
| MetricLookup.ModifiedMetric | src/metrics/metrics.go:160-204 | with a modifier f the query is for f(mBean) and a metric gets the value of the last good response named f(prefix + attribute) |
| MetricLookup.PlainMetric | src/metrics/metrics.go:160-204 | without a modifier the query is for the bean name and the key is prefix + attribute |
| MetricLookup.OthersKept | src/metrics/metrics.go:170-204 | a name nobody writes keeps its value: failed queries, missing keys and refused writes change nothing |
| MetricLookup.NotFoundIff | src/metrics/metrics.go:198-210 | the not-found names are exactly those of definitions without a good match among answered queries |
| MetricLookup.UnmatchedMetric | src/metrics/metrics.go:160-204 | which queries and keys those are, with f(mBean) and f(prefix + attribute), or the plain texts, written out |
| RequestRates.RollUp | src/metrics/metrics.go:101-114 | the sum of the numeric matches of prefix and suffix, the last response adding its own value, and whether anything matches at all |
| RequestRates.OneMoreResponse | src/metrics/metrics.go:104-113 | one more response adds its own value if it has the prefix, ends in `attr=OneMinuteRate` and is a number, and nothing otherwise; no responses give 0 |
| RequestRates.CollectBrokerRequestMetrics | src/metrics/metrics.go:80-130 | sample and not-found list are those of the sums, in order, up to the query that ends the process |
| RequestRates.MetricIsSumOfItsMatches | src/metrics/metrics.go:101-123 | a matched metric whose write succeeds holds the sum, as `OneMoreResponse` builds it up, for its own prefix and attribute |
| RequestRates.MetricNotFoundIff | src/metrics/metrics.go:116-119 | a metric is not found if and only if no response matches it, numeric or not |
| RequestRates.ShippedPrefixesUnrelated | src/metrics/broker_definitions.go:10-47 | no shipped request prefix extends another |
| RequestRates.ShippedNamesDistinct | src/metrics/broker_definitions.go:10-47 | the shipped request metrics have distinct names |
| RequestRates.CountsTowardsAtMostOneMetric | src/metrics/broker_definitions.go:10-47 | every response counts towards at most one shipped request metric |
| RequestRates.ShippedMetricsSplitTotal | src/metrics/metrics.go:100-124 | all request metrics together are the sum over all matching responses, for every list of responses |
| RequestRates.SplitIffUnrelated | src/metrics/metrics.go:104-113 | for a list of prefixes that holds for every list of responses if and only if no prefix extends another |
| TopicBuckets.FindIff | src/args/parsed_args.go:228-229 | the match found is the leftmost one at its longest |
| TopicBuckets.NoMatchIff | src/args/parsed_args.go:228-230 | the search fails if and only if no part of the text fits the pattern |
| TopicBuckets.InvalidFormatIff | src/args/parsed_args.go:230-233 | the format error is for exactly the texts without a fraction in them |
| TopicBuckets.AcceptedIff | src/args/parsed_args.go:227-254 | an argument is accepted as (b, n) if and only if its leftmost-longest match reads b and n, with 1 <= b <= n within 64 bits |
| TopicBuckets.ParsePrinted | src/args/parsed_args.go:227-254 | a printed fraction reads back, or is refused, by 1 <= b <= n alone, whatever digit-free text precedes it |
| TopicBuckets.ArgumentRoundTrip | src/args/parsed_args.go:227-254 | `b/n` parses back to (b, n) |
| TopicBuckets.SignIsIgnored | src/args/parsed_args.go:228-229 | `-1/3` is accepted as (1, 3) |
| TopicBuckets.FilterTopicsByBucket | src/kafka.go:369-381 | the filtered list is that of the specification function and holds exactly the listed topics whose hash modulo n, plus one, is the bucket |
| TopicBuckets.FilterKeepsOrder | src/kafka.go:369-381 | the filtered list holds the topics at the positions of the bucket |
| TopicBuckets.PositionsIncrease | src/kafka.go:369-381 | those positions increase, so that the order is kept |
| TopicBuckets.PositionsIff | src/kafka.go:371-377 | they are exactly the positions whose topic's hash modulo n, plus one, is the bucket |
| TopicBuckets.BucketsPartition | src/kafka.go:369-381 | every topic occurrence lands in exactly one of the buckets 1..n, for every 32-bit hash |
| TopicBuckets.InstancesShareTopics | src/args/parsed_args.go:227-254 | the instances configured `1/n` to `n/n` together collect every topic occurrence exactly once |
| Endpoints.FindIff | src/connection/connection.go:373-374 | the match found is the leftmost one at its longest |
| Endpoints.NoMatchIff | src/connection/connection.go:373-377 | the search fails if and only if no part of the text fits the pattern |
| Endpoints.ParseIff | src/connection/connection.go:372-385 | exactly which texts parse, and to what |
| Endpoints.ParsePrinted | src/connection/connection.go:372-385 | parsing undoes printing, for every proper listener, host and port |
| Endpoints.PrintParsed | src/connection/connection.go:372-385 | printing undoes parsing for a text that is nothing but a match with the port in shortest form |
| Endpoints.GetBrokerFromZookeeper | src/connection/connection.go:329-369 | the result is the first endpoint in order that parses, is preferred, has a protocol and connects; an error if and only if there is none |
| Endpoints.UsableIff | src/connection/connection.go:331-362 | which printed endpoints are usable, in terms of their parts |
| ClientIds.IdOfBean | src/client/id_detection.go:93-104 | on every well-formed bean name the extraction is a lookup among the properties by the end of the key |
| ClientIds.NoDomainNoId | src/client/id_detection.go:94-97 | a name without a colon has no id |
| ClientIds.FindsPropertyIff | src/client/id_detection.go:98-102 | for all marker-free values the id is the property of exactly that name, if and only if no longer key with that ending comes before it |
| ClientIds.AlwaysFindsPropertyIff | src/client/id_detection.go:98-102 | for all values whatsoever, if and only if that property is the first one |
| ClientIds.ClientIdTakenForId | src/client/id_detection.go:84-86 | in `d:client-id=a,id=b` the app-info extractor finds `a` |
| ClientIds.IdsFromMBeanNames | src/client/id_detection.go:73-81 | the ids are the non-empty extractions in order |
| ClientIds.GetClientIDs | src/client/id_detection.go:50-63 | the given name; else the first attempt that yields a name; else no names, with the last attempt's error |
| ClientIds.IdsOfBeans | src/client/id_detection.go:65-104 | from the beans of any clients detection gives back their ids in order |
| ClientIds.DetectConsumerIDs | src/client/id_detection.go:26-35 | the given name, else the ids when the beans that answer `kafka.consumer:type=consumer-fetch-manager-metrics,client-id=*` are named after them, or when that query yields nothing and those that answer `kafka.consumer:type=app-info,id=*` are |
| ClientIds.DetectProducerIDs | src/client/id_detection.go:37-46 | the same for producers and `producer-metrics` |

## Left out

- Kafka, Zookeeper, JMX and TCP themselves, TLS and SASL, and the New Relic SDK (entities, inventory, publishing, the
  storage behind RATE metrics): answers and failed writes are inputs.
- Logging, command-line and JSON decoding, configuration copying, the JMX configuration builder.
- `enforceTopicLimit`, cluster ids and names, topic size and offset sums, garbage-collector times: one-branch or one-loop
  facts.
- The goroutine per consumer group: the pipelines of the groups share only the offset cache and the topic memo, whose calls
  are atomic under their mutexes. `SharedLookups` takes the calls of all groups in any order.
- In the step machine of one group the answers of the offset getter are fixed per job; `SharedLookups` says what they are.
- Spawning a goroutine and adding it to its wait groups is one step of the main goroutine; nothing else can observe the
  state between them.
- The partition id of a lag message is kept as a number, not in decimal.
- A nil reply to the inactive path's offset request, which the code would dereference.
- Feeding topics and setting topic details inside a topic worker is one host without a JMX connection in `JmxPools`; the
  partition network that such a worker runs is modelled separately.
- The error returns of `setTopicInfo` before its partition pool is started, which leave the topic unchanged.
- Floating-point rounding: rates are reals, controller counts are integers.
- The bits of the FNV hash: any function into [0, 2^32) is allowed.
- Regular expressions for topics and groups.
- BeanNames.SharesWithAnyIff: is about a client and a topic without `%TOPIC%`, compared with all others; for a client that contains it, `RewrittenSharesIff` names the one client to compare with.
- JmxProvider.JMXProvider.NewConnection: does not model the waiting itself, only the state in which the acquire ends; the waiting is part of JmxPools.
- JmxProvider.CountActiveControllers: starts in a state with a free permit, the waiting being part of JmxPools, and does not model the conversion of a number too large for 64 bits, which depends on the platform.
- TopicInfo.CalculateNonPreferredLeader: requires a non-empty replica list per partition, as the code does when it reads the first replica.
- `acquired`, `released`, `handled`, `connects`, `dropped` and `received` in the step machines are logs that the code does not keep.
