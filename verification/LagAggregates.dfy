/** The two aggregators: receive loops that roll lag messages up per client, per group and per topic. */
module LagAggregates {
  import opened LagJobs
  import opened Sums
  import Int64

  // ---------------------------------------------------------------- rollups, defined without any order of arrival

  function GroupKey(m: PartitionLag): string { m.consumerGroup }
  function TopicKey(m: PartitionLag): string { m.topic }
  function ClientKey(m: PartitionLag): string { m.clientID }
  function LagValue(m: PartitionLag): int { m.lag }

  /** A missing entry reads as 0. */
  function Get(m: map<string, int>, k: string): int {
    if k in m then m[k] else 0
  }

  function KeysOf(ms: seq<PartitionLag>, key: PartitionLag -> string): set<string> {
    set m | m in ms :: key(m)
  }

  ghost function Share(key: PartitionLag -> string, k: string): PartitionLag -> int {
    m => if key(m) == k then m.lag else 0
  }

  /** Total lag per key, in 64-bit arithmetic. */
  ghost function Rollup(ms: seq<PartitionLag>, key: PartitionLag -> string): map<string, int> {
    map k | k in KeysOf(ms, key) :: Int64.Wrap(Sum(ms, Share(key, k)))
  }

  /** The largest lag of a key, 0 when none is positive. */
  ghost function Peak(ms: seq<PartitionLag>, key: PartitionLag -> string, k: string): int
  {
    if ms == [] then 0
    else
      var last := ms[|ms| - 1];
      var rest := Peak(ms[..|ms| - 1], key, k);
      if key(last) == k && last.lag > rest then last.lag else rest
  }

  function PositiveKeys(ms: seq<PartitionLag>, key: PartitionLag -> string): set<string> {
    set m | m in ms && m.lag > 0 :: key(m)
  }

  /** Largest lag per key; only keys with a positive lag have an entry. */
  ghost function PeakRollup(ms: seq<PartitionLag>, key: PartitionLag -> string): map<string, int> {
    map k | k in PositiveKeys(ms, key) :: Peak(ms, key, k)
  }

  function ActiveClients(ms: seq<PartitionLag>): set<string> {
    set m | m in ms && m.clientID != "" :: m.clientID
  }

  function TopicActiveClients(ms: seq<PartitionLag>, topic: string): set<string> {
    set m | m in ms && m.clientID != "" && m.topic == topic :: m.clientID
  }

  function ActiveTopics(ms: seq<PartitionLag>): set<string> {
    set m | m in ms && m.clientID != "" :: m.topic
  }

  function TopicClientsRollup(ms: seq<PartitionLag>): map<string, set<string>> {
    map t | t in ActiveTopics(ms) :: TopicActiveClients(ms, t)
  }

  datatype CGroupAggregations = CGroupAggregations(
    consumerGroupRollup: map<string, int>,
    consumerGroupMaxLagRollup: map<string, int>,
    cGroupActiveClientsRollup: set<string>,
    topicRollup: map<string, int>,
    topicMaxLagRollup: map<string, int>,
    topicActiveClientsRollup: map<string, set<string>>)

  ghost function CGroupReport(byTopic: bool, ms: seq<PartitionLag>): CGroupAggregations {
    CGroupAggregations(
      Rollup(ms, GroupKey),
      PeakRollup(ms, GroupKey),
      ActiveClients(ms),
      if byTopic then Rollup(ms, TopicKey) else map[],
      if byTopic then PeakRollup(ms, TopicKey) else map[],
      if byTopic then TopicClientsRollup(ms) else map[])
  }

  ghost function ClientReport(ms: seq<PartitionLag>): map<string, int> {
    Rollup(ms, ClientKey)
  }

  // ---------------------------------------------------------------- one more message

  lemma RollupAppend(ms: seq<PartitionLag>, m: PartitionLag, key: PartitionLag -> string)
    ensures Rollup(ms + [m], key) == WithLag(Rollup(ms, key), key(m), m.lag)
  {
    KeysAppend(ms, m, key);
    hide KeysOf;
    forall k | k in KeysOf(ms + [m], key)
      ensures Int64.Wrap(Sum(ms + [m], Share(key, k)))
           == if k == key(m) then Int64.Wrap(Get(Rollup(ms, key), k) + m.lag) else Int64.Wrap(Sum(ms, Share(key, k)))
    {
      ShareAppend(ms, m, key, k);
    }
    hide Sum, Int64.Wrap;
  }

  lemma KeysAppend(ms: seq<PartitionLag>, m: PartitionLag, key: PartitionLag -> string)
    ensures KeysOf(ms + [m], key) == KeysOf(ms, key) + {key(m)}
  {
  }

  lemma ShareAppend(ms: seq<PartitionLag>, m: PartitionLag, key: PartitionLag -> string, k: string)
    ensures Int64.Wrap(Sum(ms + [m], Share(key, k)))
         == if k == key(m) then Int64.Wrap(Get(Rollup(ms, key), k) + m.lag) else Int64.Wrap(Sum(ms, Share(key, k)))
  {
    SumAppend(ms, m, Share(key, k));
    if k == key(m) {
      RollupGet(ms, key, k);
      hide Sum, Rollup;
      Int64.WrapAdd(Sum(ms, Share(key, k)), m.lag);
    }
  }

  lemma RollupGet(ms: seq<PartitionLag>, key: PartitionLag -> string, k: string)
    ensures Get(Rollup(ms, key), k) == Int64.Wrap(Sum(ms, Share(key, k)))
  {
    if k !in KeysOf(ms, key) {
      NoShare(ms, key, k);
    }
  }

  lemma NoShare(ms: seq<PartitionLag>, key: PartitionLag -> string, k: string)
    requires k !in KeysOf(ms, key)
    ensures Sum(ms, Share(key, k)) == 0
  {
    SumUniform(ms, Share(key, k), 0);
  }

  lemma PeakAppend(ms: seq<PartitionLag>, m: PartitionLag, key: PartitionLag -> string, k: string)
    ensures Peak(ms + [m], key, k)
         == if key(m) == k && m.lag > Peak(ms, key, k) then m.lag else Peak(ms, key, k)
  {
    assert (ms + [m])[..|ms|] == ms;
  }

  /** `Peak` is the maximum of 0 and the lags of the key. */
  lemma {:induction false} PeakIsMaximum(ms: seq<PartitionLag>, key: PartitionLag -> string, k: string)
    ensures Peak(ms, key, k) >= 0
    ensures forall m :: m in ms && key(m) == k ==> m.lag <= Peak(ms, key, k)
    ensures Peak(ms, key, k) > 0 ==> exists m :: m in ms && key(m) == k && m.lag == Peak(ms, key, k)
  {
    if ms != [] {
      var init, last := ms[..|ms| - 1], ms[|ms| - 1];
      PeakIsMaximum(init, key, k);
      assert ms == init + [last];
    }
  }

  lemma PeakPositive(ms: seq<PartitionLag>, key: PartitionLag -> string, k: string)
    ensures Peak(ms, key, k) >= 0
    ensures Peak(ms, key, k) > 0 <==> k in PositiveKeys(ms, key)
  {
    PeakIsMaximum(ms, key, k);
  }

  lemma PeakRollupGet(ms: seq<PartitionLag>, key: PartitionLag -> string, k: string)
    ensures Get(PeakRollup(ms, key), k) == Peak(ms, key, k)
  {
    PeakPositive(ms, key, k);
  }

  lemma PositiveKeysAppend(ms: seq<PartitionLag>, m: PartitionLag, key: PartitionLag -> string)
    ensures PositiveKeys(ms + [m], key) == PositiveKeys(ms, key) + if m.lag > 0 then {key(m)} else {}
  {
  }

  lemma PeakRollupAppend(ms: seq<PartitionLag>, m: PartitionLag, key: PartitionLag -> string)
    ensures PeakRollup(ms + [m], key) == WithPeak(PeakRollup(ms, key), key(m), m.lag)
  {
    var raised := m.lag > Peak(ms, key, key(m));
    PeakRollupGet(ms, key, key(m));
    PeakPositive(ms, key, key(m));
    PositiveKeysAppend(ms, m, key);
    assert PositiveKeys(ms + [m], key) == PositiveKeys(ms, key) + if raised then {key(m)} else {};
    forall k | k in PositiveKeys(ms + [m], key)
      ensures Peak(ms + [m], key, k) == if k == key(m) && raised then m.lag else Peak(ms, key, k)
    {
      PeakAppend(ms, m, key, k);
    }
  }

  lemma ActiveClientsAppend(ms: seq<PartitionLag>, m: PartitionLag)
    ensures ActiveClients(ms + [m]) == WithActive(ActiveClients(ms), m)
    ensures ActiveTopics(ms + [m]) == ActiveTopics(ms) + if m.clientID != "" then {m.topic} else {}
  {
  }

  lemma TopicActiveClientsAppend(ms: seq<PartitionLag>, m: PartitionLag, t: string)
    ensures TopicActiveClients(ms + [m], t)
         == TopicActiveClients(ms, t) + if m.clientID != "" && m.topic == t then {m.clientID} else {}
  {
  }

  lemma TopicClientsRollupAppend(ms: seq<PartitionLag>, m: PartitionLag)
    ensures TopicClientsRollup(ms + [m]) == WithClient(TopicClientsRollup(ms), m)
  {
    ActiveClientsAppend(ms, m);
    forall t | t in TopicClientsRollup(ms + [m])
      ensures t in WithClient(TopicClientsRollup(ms), m)
           && TopicClientsRollup(ms + [m])[t] == WithClient(TopicClientsRollup(ms), m)[t]
    {
      TopicActiveClientsAppend(ms, m, t);
      if t !in ActiveTopics(ms) {
        assert TopicActiveClients(ms, t) == {};
      }
    }
  }

  /** The effect of one message on the six rollups. */
  function Added(byTopic: bool, r: CGroupAggregations, m: PartitionLag): CGroupAggregations {
    CGroupAggregations(
      WithLag(r.consumerGroupRollup, m.consumerGroup, m.lag),
      WithPeak(r.consumerGroupMaxLagRollup, m.consumerGroup, m.lag),
      WithActive(r.cGroupActiveClientsRollup, m),
      if byTopic then WithLag(r.topicRollup, m.topic, m.lag) else r.topicRollup,
      if byTopic then WithPeak(r.topicMaxLagRollup, m.topic, m.lag) else r.topicMaxLagRollup,
      if byTopic then WithClient(r.topicActiveClientsRollup, m) else r.topicActiveClientsRollup)
  }

  function WithLag(m: map<string, int>, k: string, lag: int): map<string, int> {
    m[k := Int64.Wrap(Get(m, k) + lag)]
  }

  function WithPeak(m: map<string, int>, k: string, lag: int): map<string, int> {
    if lag > Get(m, k) then m[k := lag] else m
  }

  function WithActive(clients: set<string>, m: PartitionLag): set<string> {
    if m.clientID == "" then clients else clients + {m.clientID}
  }

  function WithClient(clients: map<string, set<string>>, m: PartitionLag): map<string, set<string>> {
    if m.clientID == "" then clients
    else clients[m.topic := (if m.topic in clients then clients[m.topic] else {}) + {m.clientID}]
  }

  lemma CGroupAppend(byTopic: bool, ms: seq<PartitionLag>, m: PartitionLag)
    ensures CGroupReport(byTopic, ms + [m]) == Added(byTopic, CGroupReport(byTopic, ms), m)
  {
    RollupAppend(ms, m, GroupKey);
    PeakRollupAppend(ms, m, GroupKey);
    ActiveClientsAppend(ms, m);
    RollupAppend(ms, m, TopicKey);
    PeakRollupAppend(ms, m, TopicKey);
    TopicClientsRollupAppend(ms, m);
  }

  /** The client report, message by message: a lag goes to its client's entry, which starts at 0. */
  lemma ClientReportFold(ms: seq<PartitionLag>, m: PartitionLag)
    ensures ClientReport([]) == map[]
    ensures var r, after := ClientReport(ms), ClientReport(ms + [m]);
            after == r[m.clientID := Int64.Wrap((if m.clientID in r then r[m.clientID] else 0) + m.lag)]
  {
    RollupAppend(ms, m, ClientKey);
  }

  lemma EmptyReport(byTopic: bool)
    ensures CGroupReport(byTopic, []) == CGroupAggregations(map[], map[], {}, map[], map[], map[])
  {
  }

  lemma NothingByTopic(ms: seq<PartitionLag>)
    ensures var r := CGroupReport(false, ms);
            r.topicRollup == map[] && r.topicMaxLagRollup == map[] && r.topicActiveClientsRollup == map[]
  {
  }

  /** The group's totals, maxima and clients, message by message. */
  lemma GroupReportFold(byTopic: bool, ms: seq<PartitionLag>, m: PartitionLag)
    ensures var r, after := CGroupReport(byTopic, ms), CGroupReport(byTopic, ms + [m]);
            var g, totals, maxima := m.consumerGroup, r.consumerGroupRollup, r.consumerGroupMaxLagRollup;
            && after.consumerGroupRollup == totals[g := Int64.Wrap((if g in totals then totals[g] else 0) + m.lag)]
            && after.consumerGroupMaxLagRollup
                == (if m.lag > (if g in maxima then maxima[g] else 0) then maxima[g := m.lag] else maxima)
            && after.cGroupActiveClientsRollup
                == r.cGroupActiveClientsRollup + (if m.clientID == "" then {} else {m.clientID})
  {
    CGroupAppend(byTopic, ms, m);
    hide CGroupReport, WithClient;
  }

  /** The same per topic, if reports by topic are wanted; otherwise nothing is kept per topic. */
  lemma TopicReportFold(ms: seq<PartitionLag>, m: PartitionLag)
    ensures var r, after := CGroupReport(true, ms), CGroupReport(true, ms + [m]);
            var t, totals, maxima, clients := m.topic, r.topicRollup, r.topicMaxLagRollup, r.topicActiveClientsRollup;
            && after.topicRollup == totals[t := Int64.Wrap((if t in totals then totals[t] else 0) + m.lag)]
            && after.topicMaxLagRollup
                == (if m.lag > (if t in maxima then maxima[t] else 0) then maxima[t := m.lag] else maxima)
            && after.topicActiveClientsRollup
                == (if m.clientID == "" then clients
                    else clients[t := (if t in clients then clients[t] else {}) + {m.clientID}])
    ensures var r := CGroupReport(false, ms);
            r.topicRollup == map[] && r.topicMaxLagRollup == map[] && r.topicActiveClientsRollup == map[]
  {
    CGroupAppend(true, ms, m);
    NothingByTopic(ms);
    hide CGroupReport;
  }

  // ---------------------------------------------------------------- the aggregator objects

  class ClientMetricsAggregator {
    var clientMetrics: map<string, int>
    const consumerGroup: string
    ghost var seen: seq<PartitionLag>

    ghost predicate Valid()
      reads this
    {
      clientMetrics == ClientReport(seen)
    }

    constructor (consumerGroup: string)
      ensures Valid() && seen == [] && this.consumerGroup == consumerGroup
    {
      this.consumerGroup := consumerGroup;
      clientMetrics := map[];
      seen := [];
    }

    method Aggregate(result: PartitionLag)
      modifies this
      ensures clientMetrics == WithLag(old(clientMetrics), result.clientID, result.lag)
      ensures seen == old(seen) + [result]
    {
      clientMetrics := clientMetrics[result.clientID := Int64.Wrap(Get(clientMetrics, result.clientID) + result.lag)];
      seen := seen + [result];
    }

    /** `delivered` is what the channel yields until it is closed. */
    method WaitAndAggregateMetrics(delivered: seq<PartitionLag>)
      requires Valid()
      modifies this
      ensures Valid() && seen == old(seen) + delivered
      ensures clientMetrics == ClientReport(old(seen) + delivered)
    {
      var i := 0;
      while i < |delivered|
        invariant 0 <= i <= |delivered|
        invariant Valid() && seen == old(seen) + delivered[..i]
      {
        assert old(seen) + delivered[..i + 1] == seen + [delivered[i]];
        RollupAppend(seen, delivered[i], ClientKey);
        Aggregate(delivered[i]);
        i := i + 1;
      }
      assert delivered[..i] == delivered;
    }
  }

  class CGroupMetricsAggregator {
    var consumerGroupRollup: map<string, int>
    var consumerGroupMaxLagRollup: map<string, int>
    var cGroupActiveClientsRollup: set<string>
    var topicRollup: map<string, int>
    var topicMaxLagRollup: map<string, int>
    var topicActiveClientsRollup: map<string, set<string>>
    const consumerGroup: string
    const consumerGroupOffsetByTopic: bool
    ghost var seen: seq<PartitionLag>

    ghost function Aggregated(): CGroupAggregations
      reads this
    {
      CGroupAggregations(consumerGroupRollup, consumerGroupMaxLagRollup, cGroupActiveClientsRollup,
                         topicRollup, topicMaxLagRollup, topicActiveClientsRollup)
    }

    ghost predicate Valid()
      reads this
    {
      Aggregated() == CGroupReport(consumerGroupOffsetByTopic, seen)
    }

    constructor (consumerGroup: string, byTopic: bool)
      ensures Valid() && seen == []
      ensures this.consumerGroup == consumerGroup && consumerGroupOffsetByTopic == byTopic
    {
      this.consumerGroup := consumerGroup;
      consumerGroupOffsetByTopic := byTopic;
      consumerGroupRollup, consumerGroupMaxLagRollup, cGroupActiveClientsRollup := map[], map[], {};
      topicRollup, topicMaxLagRollup, topicActiveClientsRollup := map[], map[], map[];
      seen := [];
    }

    method AggregateGroup(result: PartitionLag)
      modifies this`consumerGroupRollup, this`consumerGroupMaxLagRollup, this`cGroupActiveClientsRollup
      ensures consumerGroupRollup == WithLag(old(consumerGroupRollup), result.consumerGroup, result.lag)
      ensures consumerGroupMaxLagRollup == WithPeak(old(consumerGroupMaxLagRollup), result.consumerGroup, result.lag)
      ensures cGroupActiveClientsRollup == WithActive(old(cGroupActiveClientsRollup), result)
    {
      var group := result.consumerGroup;
      consumerGroupRollup := consumerGroupRollup[group := Int64.Wrap(Get(consumerGroupRollup, group) + result.lag)];
      if result.lag > Get(consumerGroupMaxLagRollup, group) {
        consumerGroupMaxLagRollup := consumerGroupMaxLagRollup[group := result.lag];
      }
      if result.clientID != "" {
        cGroupActiveClientsRollup := cGroupActiveClientsRollup + {result.clientID};
      }
    }

    method AggregateTopic(result: PartitionLag)
      modifies this`topicRollup, this`topicMaxLagRollup, this`topicActiveClientsRollup
      ensures topicRollup == WithLag(old(topicRollup), result.topic, result.lag)
      ensures topicMaxLagRollup == WithPeak(old(topicMaxLagRollup), result.topic, result.lag)
      ensures topicActiveClientsRollup == WithClient(old(topicActiveClientsRollup), result)
    {
      var topic := result.topic;
      topicRollup := topicRollup[topic := Int64.Wrap(Get(topicRollup, topic) + result.lag)];
      if result.lag > Get(topicMaxLagRollup, topic) {
        topicMaxLagRollup := topicMaxLagRollup[topic := result.lag];
      }
      if result.clientID != "" {
        if topic !in topicActiveClientsRollup {
          topicActiveClientsRollup := topicActiveClientsRollup[topic := {}];
        }
        var clients := topicActiveClientsRollup[topic] + {result.clientID};
        topicActiveClientsRollup := topicActiveClientsRollup[topic := clients];
      }
    }

    /** The loop body: one message updates the group maps, and the topic maps when by-topic aggregation is on. */
    method Aggregate(result: PartitionLag)
      modifies this
      ensures Aggregated() == Added(consumerGroupOffsetByTopic, old(Aggregated()), result)
      ensures seen == old(seen) + [result]
    {
      AggregateGroup(result);
      if consumerGroupOffsetByTopic {
        AggregateTopic(result);
      }
      seen := seen + [result];
    }

    /** `delivered` is what the channel yields until it is closed. */
    method WaitAndAggregateMetrics(delivered: seq<PartitionLag>)
      requires Valid()
      modifies this
      ensures Valid() && seen == old(seen) + delivered
      ensures Aggregated() == CGroupReport(consumerGroupOffsetByTopic, old(seen) + delivered)
      ensures var report := CGroupReport(consumerGroupOffsetByTopic, old(seen) + delivered);
              && consumerGroupRollup == report.consumerGroupRollup
              && consumerGroupMaxLagRollup == report.consumerGroupMaxLagRollup
              && cGroupActiveClientsRollup == report.cGroupActiveClientsRollup
              && topicRollup == report.topicRollup
              && topicMaxLagRollup == report.topicMaxLagRollup
              && topicActiveClientsRollup == report.topicActiveClientsRollup
    {
      var i := 0;
      while i < |delivered|
        invariant 0 <= i <= |delivered|
        invariant Valid() && seen == old(seen) + delivered[..i]
      {
        assert old(seen) + delivered[..i + 1] == seen + [delivered[i]];
        CGroupAppend(consumerGroupOffsetByTopic, seen, delivered[i]);
        Aggregate(delivered[i]);
        i := i + 1;
      }
      assert delivered[..i] == delivered;
    }
  }

  // ---------------------------------------------------------------- order of arrival does not matter

  lemma PeakPermutation(a: seq<PartitionLag>, b: seq<PartitionLag>, key: PartitionLag -> string, k: string)
    requires multiset(a) == multiset(b)
    ensures Peak(a, key, k) == Peak(b, key, k)
  {
    PeakIsMaximum(a, key, k);
    PeakIsMaximum(b, key, k);
    SameElements(a, b);
  }

  lemma SameElements<T>(a: seq<T>, b: seq<T>)
    requires multiset(a) == multiset(b)
    ensures forall x :: x in a <==> x in b
  {
    forall x ensures x in a <==> x in b {
      assert x in a <==> x in multiset(a);
      assert x in b <==> x in multiset(b);
    }
  }

  lemma RollupPermutation(a: seq<PartitionLag>, b: seq<PartitionLag>, key: PartitionLag -> string)
    requires multiset(a) == multiset(b)
    ensures Rollup(a, key) == Rollup(b, key)
    ensures PeakRollup(a, key) == PeakRollup(b, key)
  {
    SameElements(a, b);
    assert KeysOf(a, key) == KeysOf(b, key);
    forall k ensures Sum(a, Share(key, k)) == Sum(b, Share(key, k)) && Peak(a, key, k) == Peak(b, key, k) {
      SumPermutation(a, b, Share(key, k));
      PeakPermutation(a, b, key, k);
    }
    assert PositiveKeys(a, key) == PositiveKeys(b, key);
  }

  /** Both aggregates are functions of the multiset of messages. */
  lemma ReportsIgnoreOrder(byTopic: bool, a: seq<PartitionLag>, b: seq<PartitionLag>)
    requires multiset(a) == multiset(b)
    ensures CGroupReport(byTopic, a) == CGroupReport(byTopic, b)
    ensures ClientReport(a) == ClientReport(b)
  {
    RollupPermutation(a, b, GroupKey);
    RollupPermutation(a, b, TopicKey);
    RollupPermutation(a, b, ClientKey);
    SameElements(a, b);
    assert ActiveClients(a) == ActiveClients(b);
    assert ActiveTopics(a) == ActiveTopics(b);
    forall t ensures TopicActiveClients(a, t) == TopicActiveClients(b, t) {
    }
  }
}
