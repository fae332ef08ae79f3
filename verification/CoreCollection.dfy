/**
 * The order in which the core collection starts, feeds and waits for its pools, and the connections it makes itself.
 */
module CoreCollection {
  import opened JmxPools
  import opened Sums

  const BROKER_POOL: nat := 0
  const TOPIC_POOL: nat := 1
  const CONSUMER_POOL: nat := 2
  const PRODUCER_POOL: nat := 3

  const NUMBER_OF_BROKER_WORKERS: nat := 3
  const NUMBER_OF_TOPIC_WORKERS: nat := 5
  const NUMBER_OF_CONSUMER_WORKERS: nat := 3
  const NUMBER_OF_PRODUCER_WORKERS: nat := 3

  /** How far the preparation of the broker collection gets. */
  datatype Discovery = BrokersFailed | ClientFailed | ProbeFailed | Ready

  datatype Settings = Settings(
    collectBrokers: bool,
    localOnly: bool,
    forceTopicSamples: bool,
    clusterMetrics: bool)

  /** A broker as its pool collects it, and whether the main goroutine's own connection to it opens. */
  datatype Broker = Broker(host: Host, checkOpens: bool)

  /**
   * The hosts of each pool. `controller` is the place of the controller among the brokers, any other number if it is
   * not found there; `clusterOutcome` is what becomes of the connection for the cluster metrics.
   */
  datatype Inputs = Inputs(
    brokers: seq<Broker>,
    topics: seq<Host>,
    consumers: seq<Host>,
    producers: seq<Host>,
    controller: nat,
    clusterOutcome: Outcome)

  function BrokerHosts(brokers: seq<Broker>): seq<Host> {
    seq(|brokers|, i requires 0 <= i < |brokers| => brokers[i].host)
  }

  /** The main goroutine's connection to a broker for the controller count: no query in it ends the process. */
  function Check(broker: Broker): Host {
    broker.host.(outcome := if broker.checkOpens then Collected else OpenFails)
  }

  function ControllerChecks(brokers: seq<Broker>): seq<Host> {
    seq(|brokers|, i requires 0 <= i < |brokers| => Check(brokers[i]))
  }

  /** The connection for the cluster metrics: to the controller, or else to the first broker. */
  function ClusterHost(inputs: Inputs): Host
    requires inputs.brokers != []
  {
    var chosen := if inputs.controller < |inputs.brokers| then inputs.controller else 0;
    inputs.brokers[chosen].host.(outcome := inputs.clusterOutcome)
  }

  predicate CollectsTopics(s: Settings) {
    s.collectBrokers && (!s.localOnly || s.forceTopicSamples)
  }

  predicate InPool(hosts: seq<Host>, pool: nat) {
    forall i :: 0 <= i < |hosts| ==> hosts[i].pool == pool
  }

  /** Each host is listed with its pool. */
  predicate ProperInputs(inputs: Inputs) {
    && InPool(BrokerHosts(inputs.brokers), BROKER_POOL) && InPool(inputs.topics, TOPIC_POOL)
    && InPool(inputs.consumers, CONSUMER_POOL) && InPool(inputs.producers, PRODUCER_POOL)
  }

  function StartWorkers(first: nat, count: nat): seq<Op> {
    if count == 0 then [] else StartWorkers(first, count - 1) + [StartWorker(first + count - 1)]
  }

  function Connects(hosts: seq<Host>): seq<Op> {
    if hosts == [] then [] else Connects(hosts[..|hosts| - 1]) + [Connect(hosts[|hosts| - 1])]
  }

  function TopicPart(settings: Settings): seq<Op> {
    if CollectsTopics(settings) then StartWorkers(3, NUMBER_OF_TOPIC_WORKERS) + [StartFeeder(TOPIC_POOL)] else []
  }

  function ClusterPart(settings: Settings, inputs: Inputs): seq<Op> {
    if settings.clusterMetrics && inputs.brokers != []
      then Connects(ControllerChecks(inputs.brokers)) + [Connect(ClusterHost(inputs))] else []
  }

  function BrokerScript(settings: Settings, inputs: Inputs): seq<Op> {
    StartWorkers(0, NUMBER_OF_BROKER_WORKERS) + TopicPart(settings) + ClusterPart(settings, inputs)
        + [StartFeeder(BROKER_POOL)]
  }

  function ClientScript(): seq<Op> {
    StartWorkers(8, NUMBER_OF_CONSUMER_WORKERS) + StartWorkers(11, NUMBER_OF_PRODUCER_WORKERS)
    + [StartFeeder(CONSUMER_POOL), StartFeeder(PRODUCER_POOL)]
  }

  function Script(settings: Settings, inputs: Inputs): seq<Op> {
    (if settings.collectBrokers then BrokerScript(settings, inputs) else []) + ClientScript()
  }

  /** A pool that is not started has nothing to hand out. */
  function CoreConfig(limit: int, settings: Settings, inputs: Inputs): Config {
    Config(limit,
           [if settings.collectBrokers then BrokerHosts(inputs.brokers) else [],
            if CollectsTopics(settings) then inputs.topics else [],
            inputs.consumers, inputs.producers],
           [0, 0, 0, 1, 1, 1, 1, 1, 2, 2, 2, 3, 3, 3],
           Script(settings, inputs))
  }

  // ---------------------------------------------------------------- the code's own loops

  method StartPool(script0: seq<Op>, first: nat, poolSize: nat) returns (script: seq<Op>)
    ensures script == script0 + StartWorkers(first, poolSize)
  {
    script := script0;
    for i := 0 to poolSize
      invariant script == script0 + StartWorkers(first, i)
    {
      script := script + [StartWorker(first + i)];
    }
  }

  /** One connection to every broker, in order. */
  method CheckControllers(script0: seq<Op>, brokers: seq<Broker>) returns (script: seq<Op>)
    ensures script == script0 + Connects(ControllerChecks(brokers))
  {
    script := script0;
    for i := 0 to |brokers|
      invariant script == script0 + Connects(ControllerChecks(brokers)[..i])
    {
      var checks := ControllerChecks(brokers);
      assert checks[..i + 1][..i] == checks[..i];
      script := script + [Connect(Check(brokers[i]))];
    }
    assert ControllerChecks(brokers)[..|brokers|] == ControllerChecks(brokers);
  }

  method StartBrokerSide(settings: Settings, inputs: Inputs) returns (script: seq<Op>)
    requires settings.collectBrokers
    ensures script == BrokerScript(settings, inputs)
    ensures OnceEach(script) && forall op :: op in script && !op.Connect? <==> IsBrokerOp(settings, op)
    ensures HostsConnected(script) == ClusterHosts(settings, inputs)
    ensures |script| > 3 && (forall i :: 0 <= i < 3 ==> script[i] == StartWorker(i))
         && script[|script| - 1] == StartFeeder(BROKER_POOL)
  {
    BrokerScriptOnce(settings, inputs);
    BrokerScriptOps(settings, inputs);
    BrokerConnections(settings, inputs);
    BrokerEnds(settings, inputs);
    hide OnceEach, IsBrokerOp, HostsConnected, ClusterHosts;
    hide StartWorkers, Connects;
    script := StartPool([], 0, NUMBER_OF_BROKER_WORKERS);
    ghost var starts := script;
    if !settings.localOnly || settings.forceTopicSamples {
      script := StartPool(script, 3, NUMBER_OF_TOPIC_WORKERS);
      script := script + [StartFeeder(TOPIC_POOL)];
    }
    assert script == starts + TopicPart(settings);
    if settings.clusterMetrics && |inputs.brokers| > 0 {
      script := CheckControllers(script, inputs.brokers);
      script := script + [Connect(ClusterHost(inputs))];
    }
    assert script == starts + TopicPart(settings) + ClusterPart(settings, inputs);
    script := script + [StartFeeder(BROKER_POOL)];
  }

  /** What the main goroutine goes through: nothing at all when the preparation fails, else the script. */
  method Run(settings: Settings, discovery: Discovery, inputs: Inputs) returns (script: seq<Op>, aborted: bool)
    ensures aborted <==> settings.collectBrokers && discovery != Ready
    ensures script == if aborted then [] else Script(settings, inputs)
  {
    hide StartWorkers, BrokerScript, OnceEach, IsBrokerOp, HostsConnected, ClusterHosts;
    script, aborted := [], false;
    if settings.collectBrokers {
      if discovery != Ready {
        return [], true;
      }
      script := StartBrokerSide(settings, inputs);
    }
    ghost var before := script;
    script := StartPool(script, 8, NUMBER_OF_CONSUMER_WORKERS);
    script := StartPool(script, 11, NUMBER_OF_PRODUCER_WORKERS);
    script := script + [StartFeeder(CONSUMER_POOL)];
    script := script + [StartFeeder(PRODUCER_POOL)];
    ClientSide(before);
  }

  lemma ClientSide(before: seq<Op>)
    ensures before + StartWorkers(8, NUMBER_OF_CONSUMER_WORKERS) + StartWorkers(11, NUMBER_OF_PRODUCER_WORKERS)
            + [StartFeeder(CONSUMER_POOL)] + [StartFeeder(PRODUCER_POOL)]
         == before + ClientScript()
  {
    hide StartWorkers;
    assert [StartFeeder(CONSUMER_POOL)] + [StartFeeder(PRODUCER_POOL)]
        == [StartFeeder(CONSUMER_POOL), StartFeeder(PRODUCER_POOL)];
  }

  // ---------------------------------------------------------------- every configuration is well formed

  lemma {:induction false} StartWorkersAre(first: nat, count: nat)
    ensures |StartWorkers(first, count)| == count
    ensures forall i :: 0 <= i < count ==> StartWorkers(first, count)[i] == StartWorker(first + i)
  {
    if count > 0 {
      StartWorkersAre(first, count - 1);
    }
  }

  lemma {:induction false} ConnectsAre(hosts: seq<Host>)
    ensures forall op :: op in Connects(hosts) ==> op.Connect?
  {
    if hosts != [] {
      ConnectsAre(hosts[..|hosts| - 1]);
    }
  }

  lemma OnceEachConcat(a: seq<Op>, b: seq<Op>)
    requires OnceEach(a) && OnceEach(b)
    requires forall op :: op in a && op in b ==> op.Connect?
    ensures OnceEach(a + b)
  {
    var c := a + b;
    forall i, j | 0 <= i < j < |c| && !c[i].Connect? ensures c[i] != c[j] {
      assert c[i] in a || c[i] in b;
      if i < |a| <= j {
        assert c[i] in a && c[j] in b;
      }
    }
  }

  predicate StartsBetween(ops: seq<Op>, lo: nat, hi: nat) {
    forall op :: op in ops ==> op.StartWorker? && lo <= op.w < hi
  }

  lemma StartWorkersOnce(first: nat, count: nat)
    ensures OnceEach(StartWorkers(first, count)) && StartsBetween(StartWorkers(first, count), first, first + count)
    ensures forall w: nat :: first <= w < first + count ==> StartWorker(w) in StartWorkers(first, count)
  {
    StartWorkersAre(first, count);
    forall w: nat | first <= w < first + count ensures StartWorker(w) in StartWorkers(first, count) {
      assert StartWorkers(first, count)[w - first] == StartWorker(w);
    }
  }

  lemma TopicPartOnce(settings: Settings)
    ensures OnceEach(TopicPart(settings))
    ensures forall op :: op in TopicPart(settings) <==>
                         CollectsTopics(settings)
                             && ((op.StartWorker? && 3 <= op.w < 8) || op == StartFeeder(TOPIC_POOL))
  {
    StartWorkersOnce(3, NUMBER_OF_TOPIC_WORKERS);
    OnceEachConcat(StartWorkers(3, NUMBER_OF_TOPIC_WORKERS), [StartFeeder(TOPIC_POOL)]);
  }

  lemma ClusterPartOnce(settings: Settings, inputs: Inputs)
    ensures OnceEach(ClusterPart(settings, inputs))
    ensures forall op :: op in ClusterPart(settings, inputs) ==> op.Connect?
  {
    ConnectsAre(ControllerChecks(inputs.brokers));
  }

  predicate IsBrokerOp(settings: Settings, op: Op) {
    (op.StartWorker? && op.w < 3) || op in TopicPart(settings) || op == StartFeeder(BROKER_POOL)
  }

  predicate IsClientOp(op: Op) {
    (op.StartWorker? && 8 <= op.w < 14) || op == StartFeeder(CONSUMER_POOL) || op == StartFeeder(PRODUCER_POOL)
  }

  lemma SidesDisjoint(settings: Settings)
    ensures forall op :: IsBrokerOp(settings, op) ==> !IsClientOp(op)
    ensures forall op :: IsClientOp(op) ==> !op.Connect?
  {
    TopicPartOnce(settings);
  }

  lemma BrokerScriptOps(settings: Settings, inputs: Inputs)
    ensures forall op :: op in BrokerScript(settings, inputs) && !op.Connect? <==> IsBrokerOp(settings, op)
  {
    StartWorkersOnce(0, NUMBER_OF_BROKER_WORKERS);
    TopicPartOnce(settings);
    ClusterPartOnce(settings, inputs);
    hide StartWorkers, TopicPart, ClusterPart, OnceEach;
  }

  lemma BrokerScriptOnce(settings: Settings, inputs: Inputs)
    ensures OnceEach(BrokerScript(settings, inputs))
  {
    var starts := StartWorkers(0, NUMBER_OF_BROKER_WORKERS);
    var topics, cluster := TopicPart(settings), ClusterPart(settings, inputs);
    StartWorkersOnce(0, NUMBER_OF_BROKER_WORKERS);
    TopicPartOnce(settings);
    ClusterPartOnce(settings, inputs);
    assert OnceEach([StartFeeder(BROKER_POOL)]);
    hide StartWorkers, TopicPart, ClusterPart, OnceEach;
    OnceEachConcat(starts, topics);
    OnceEachConcat(starts + topics, cluster);
    OnceEachConcat(starts + topics + cluster, [StartFeeder(BROKER_POOL)]);
  }

  /** The hosts that the main goroutine connects to itself, in order. */
  function HostsConnected(script: seq<Op>): seq<Host> {
    if script == [] then []
    else
      var last := script[|script| - 1];
      HostsConnected(script[..|script| - 1]) + if last.Connect? then [last.host] else []
  }

  function ClusterHosts(settings: Settings, inputs: Inputs): seq<Host> {
    if settings.clusterMetrics && inputs.brokers != []
    then ControllerChecks(inputs.brokers) + [ClusterHost(inputs)] else []
  }

  lemma ClusterHostsAre(settings: Settings, inputs: Inputs)
    ensures !settings.clusterMetrics || inputs.brokers == [] ==> ClusterHosts(settings, inputs) == []
    ensures settings.clusterMetrics && inputs.brokers != [] ==>
              var hosts, n := ClusterHosts(settings, inputs), |inputs.brokers|;
              && |hosts| == n + 1
              && (forall i :: 0 <= i < n ==> hosts[i] == inputs.brokers[i].host.(
                    outcome := if inputs.brokers[i].checkOpens then Collected else OpenFails))
              && hosts[n] == inputs.brokers[if inputs.controller < n then inputs.controller else 0]
                             .host.(outcome := inputs.clusterOutcome)
  {
  }

  lemma {:induction false} ConnectedConcat(a: seq<Op>, b: seq<Op>)
    ensures HostsConnected(a + b) == HostsConnected(a) + HostsConnected(b)
  {
    if b == [] {
      assert a + b == a;
    } else {
      assert (a + b)[..|a + b| - 1] == a + b[..|b| - 1];
      ConnectedConcat(a, b[..|b| - 1]);
    }
  }

  lemma {:induction false} ConnectedIff(script: seq<Op>)
    ensures forall h :: h in HostsConnected(script) <==> Connect(h) in script
  {
    if script != [] {
      ConnectedIff(script[..|script| - 1]);
      assert script == script[..|script| - 1] + [script[|script| - 1]];
    }
  }

  lemma {:induction false} StartsConnected(first: nat, count: nat)
    ensures HostsConnected(StartWorkers(first, count)) == []
  {
    if count > 0 {
      StartsConnected(first, count - 1);
    }
  }

  lemma FeederConnected(p: nat)
    ensures HostsConnected([StartFeeder(p)]) == []
  {
    assert [StartFeeder(p)][..0] == [];
  }

  lemma TopicConnected(settings: Settings)
    ensures HostsConnected(TopicPart(settings)) == []
  {
    StartsConnected(3, NUMBER_OF_TOPIC_WORKERS);
    FeederConnected(TOPIC_POOL);
    ConnectedConcat(StartWorkers(3, NUMBER_OF_TOPIC_WORKERS), [StartFeeder(TOPIC_POOL)]);
  }

  lemma {:induction false} ConnectsConnected(hosts: seq<Host>)
    ensures HostsConnected(Connects(hosts)) == hosts
  {
    if hosts != [] {
      ConnectsConnected(hosts[..|hosts| - 1]);
    }
  }

  lemma ClusterConnected(settings: Settings, inputs: Inputs)
    ensures HostsConnected(ClusterPart(settings, inputs)) == ClusterHosts(settings, inputs)
  {
    if settings.clusterMetrics && inputs.brokers != [] {
      var checks := ControllerChecks(inputs.brokers);
      ConnectsConnected(checks);
      assert ClusterPart(settings, inputs)[..|Connects(checks)|] == Connects(checks);
    }
  }

  /** On the broker side the main goroutine connects to every broker for the controller count and then once more. */
  lemma BrokerConnections(settings: Settings, inputs: Inputs)
    ensures HostsConnected(BrokerScript(settings, inputs)) == ClusterHosts(settings, inputs)
    ensures !settings.clusterMetrics || inputs.brokers == [] ==> HostsConnected(BrokerScript(settings, inputs)) == []
    ensures settings.clusterMetrics && inputs.brokers != [] ==>
              var hosts, n := HostsConnected(BrokerScript(settings, inputs)), |inputs.brokers|;
              && |hosts| == n + 1
              && (forall i :: 0 <= i < n ==> hosts[i] == inputs.brokers[i].host.(
                    outcome := if inputs.brokers[i].checkOpens then Collected else OpenFails))
              && hosts[n] == inputs.brokers[if inputs.controller < n then inputs.controller else 0]
                             .host.(outcome := inputs.clusterOutcome)
  {
    var starts := StartWorkers(0, NUMBER_OF_BROKER_WORKERS);
    var topics, cluster := TopicPart(settings), ClusterPart(settings, inputs);
    assert BrokerScript(settings, inputs) == starts + topics + cluster + [StartFeeder(BROKER_POOL)];
    ClusterHostsAre(settings, inputs);
    hide *;
    ClusterConnected(settings, inputs);
    StartsConnected(0, NUMBER_OF_BROKER_WORKERS);
    TopicConnected(settings);
    FeederConnected(BROKER_POOL);
    ConnectedConcat(starts, topics);
    ConnectedConcat(starts + topics, cluster);
    ConnectedConcat(starts + topics + cluster, [StartFeeder(BROKER_POOL)]);
  }

  /** Brokers are handed out last, after every connection of the main goroutine. */
  lemma BrokerEnds(settings: Settings, inputs: Inputs)
    ensures var script := BrokerScript(settings, inputs);
            |script| > 3 && (forall i :: 0 <= i < 3 ==> script[i] == StartWorker(i))
                && script[|script| - 1] == StartFeeder(BROKER_POOL)
  {
    StartWorkersAre(0, NUMBER_OF_BROKER_WORKERS);
    hide StartWorkers, TopicPart, ClusterPart;
  }

  lemma ClientScriptOps()
    ensures forall op :: op in ClientScript() <==> IsClientOp(op)
  {
    StartWorkersOnce(8, NUMBER_OF_CONSUMER_WORKERS);
    StartWorkersOnce(11, NUMBER_OF_PRODUCER_WORKERS);
    hide StartWorkers, OnceEach;
  }

  lemma ClientScriptOnce()
    ensures OnceEach(ClientScript())
  {
    var consumers := StartWorkers(8, NUMBER_OF_CONSUMER_WORKERS);
    var producers := StartWorkers(11, NUMBER_OF_PRODUCER_WORKERS);
    var feeders := [StartFeeder(CONSUMER_POOL), StartFeeder(PRODUCER_POOL)];
    StartWorkersOnce(8, NUMBER_OF_CONSUMER_WORKERS);
    StartWorkersOnce(11, NUMBER_OF_PRODUCER_WORKERS);
    assert OnceEach(feeders);
    hide StartWorkers, OnceEach;
    OnceEachConcat(consumers, producers);
    OnceEachConcat(consumers + producers, feeders);
  }

  lemma ScriptOnce(settings: Settings, inputs: Inputs)
    ensures OnceEach(Script(settings, inputs))
    ensures forall op :: op in Script(settings, inputs) && !op.Connect? <==>
                         IsClientOp(op) || (settings.collectBrokers && IsBrokerOp(settings, op))
  {
    ClientScriptOnce();
    ClientScriptOps();
    SidesDisjoint(settings);
    hide BrokerScript, ClientScript, OnceEach, IsBrokerOp, IsClientOp;
    if settings.collectBrokers {
      BrokerScriptOnce(settings, inputs);
      BrokerScriptOps(settings, inputs);
      OnceEachConcat(BrokerScript(settings, inputs), ClientScript());
    } else {
      assert Script(settings, inputs) == ClientScript();
    }
  }

  /** Whatever the settings and the hosts, the pools that the core collection sets up are well formed. */
  lemma CoreIsWellFormed(limit: int, settings: Settings, inputs: Inputs)
    requires ProperInputs(inputs)
    ensures WellFormed(CoreConfig(limit, settings, inputs))
  {
    var cfg := CoreConfig(limit, settings, inputs);
    ScriptOnce(settings, inputs);
    ClientScriptOps();
    TopicPartOnce(settings);
    hide Script, ClientScript, TopicPart, OnceEach;
    forall p | 0 <= p < |cfg.pools| && cfg.pools[p] != []
      ensures exists w :: 0 <= w < |cfg.poolOf| && cfg.poolOf[w] == p && StartWorker(w) in cfg.script
    {
      var w := if p == 0 then 0 else if p == 1 then 3 else if p == 2 then 8 else 11;
      assert cfg.poolOf[w] == p;
      assert StartWorker(w) in cfg.script;
    }
  }

  lemma FourPools(a: seq<Host>, b: seq<Host>, c: seq<Host>, d: seq<Host>)
    ensures Gather([a, b, c, d], PoolHosts) == multiset(a) + multiset(b) + multiset(c) + multiset(d)
  {
    assert [a, b, c, d] == [a, b] + [c, d] && [a, b] == [a] + [b] && [c, d] == [c] + [d];
    GatherConcat([a, b], [c, d], PoolHosts);
    GatherAppend([a], b, PoolHosts);
    GatherAppend([c], d, PoolHosts);
    assert [a][1..] == [] && [c][1..] == [];
  }

  lemma CoreHosts(limit: int, settings: Settings, inputs: Inputs)
    ensures var brokers := seq(|inputs.brokers|, i requires 0 <= i < |inputs.brokers| => inputs.brokers[i].host);
            var topics := settings.collectBrokers && (!settings.localOnly || settings.forceTopicSamples);
            Gather(CoreConfig(limit, settings, inputs).pools, PoolHosts)
                == (if settings.collectBrokers then multiset(brokers) else multiset{})
                   + (if topics then multiset(inputs.topics) else multiset{})
                   + multiset(inputs.consumers) + multiset(inputs.producers)
  {
    var pools := CoreConfig(limit, settings, inputs).pools;
    FourPools(pools[0], pools[1], pools[2], pools[3]);
    assert pools == [pools[0], pools[1], pools[2], pools[3]];
    var brokers := seq(|inputs.brokers|, i requires 0 <= i < |inputs.brokers| => inputs.brokers[i].host);
    assert BrokerHosts(inputs.brokers) == brokers;
  }

  /**
   * The core collection as a whole: with at least one JMX permit it is never stuck before it returns or exits, and when
   * it returns every broker, topic, consumer and producer host has been handled exactly once and all permits are free.
   */
  lemma CoreCollectionCompletes(limit: int, settings: Settings, inputs: Inputs, steps: seq<Step>, t: State)
    requires ProperInputs(inputs) && limit >= 1
    requires Leads(CoreConfig(limit, settings, inputs), Initial(CoreConfig(limit, settings, inputs)), steps, t)
    ensures !t.exited && t.main != Returned ==> exists step :: Enabled(CoreConfig(limit, settings, inputs), t, step)
    ensures t.main == Returned ==>
              var brokers := seq(|inputs.brokers|, i requires 0 <= i < |inputs.brokers| => inputs.brokers[i].host);
              var topics := settings.collectBrokers && (!settings.localOnly || settings.forceTopicSamples);
              multiset(t.handled) == (if settings.collectBrokers then multiset(brokers) else multiset{})
                                     + (if topics then multiset(inputs.topics) else multiset{})
                                     + multiset(inputs.consumers) + multiset(inputs.producers)
    ensures t.main == Returned ==> t.free == limit && t.acquired == t.released
  {
    var cfg := CoreConfig(limit, settings, inputs);
    CoreIsWellFormed(limit, settings, inputs);
    CoreHosts(limit, settings, inputs);
    hide CoreConfig, WellFormed, Leads, Gather;
    if t.main == Returned {
      AllHandledOnReturn(cfg, steps, t);
      InitialHosts(cfg);
    } else if !t.exited {
      NeverStuck(cfg, steps, t);
    }
  }
}
