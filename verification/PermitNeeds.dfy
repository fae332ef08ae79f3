/** When the collection gets by with the permits it has: exactly which configurations can wait for ever. */
module PermitNeeds {
  import opened JmxPools
  import opened CoreCollection
  import opened Sums

  /** Nothing can move although the main goroutine has not returned and the process has not exited. */
  ghost predicate Stuck(cfg: Config, s: State) {
    !s.exited && s.main != Returned && forall step :: !Enabled(cfg, s, step)
  }

  ghost predicate StuckRun(cfg: Config, steps: seq<Step>, t: State) {
    Leads(cfg, Initial(cfg), steps, t) && Stuck(cfg, t)
  }

  ghost predicate CanGetStuck(cfg: Config) {
    exists steps, t :: StuckRun(cfg, steps, t)
  }

  predicate NoneConnect(hosts: seq<Host>) {
    forall h :: h in hosts ==> h.outcome == NoConnection
  }

  /** Neither the main goroutine nor any listed host asks for a permit. */
  predicate NeedsNoPermit(cfg: Config) {
    && (forall op :: op in cfg.script ==> !op.Connect?)
    && (forall p :: 0 <= p < |cfg.pools| ==> NoneConnect(cfg.pools[p]))
  }

  // ---------------------------------------------------------------- nobody asks for a permit

  predicate NobodyAsks(s: State) {
    && !s.main.MainUsing?
    && (forall p :: 0 <= p < |s.feeders| ==> NoneConnect(s.feeders[p].hosts))
    && (forall i :: 0 <= i < |s.workers| ==> NoneConnect(HostOf(s.workers[i])) && !s.workers[i].phase.Using?)
  }

  lemma NobodyAsksStep(cfg: Config, s: State, step: Step)
    requires NeedsNoPermit(cfg) && NobodyAsks(s) && Enabled(cfg, s, step)
    ensures NobodyAsks(Apply(cfg, s, step))
  {
    match step
    case MainStep =>
    case FeederStep(p) =>
    case HandOver(i) =>
      var f := s.feeders[s.workers[i].pool];
      assert NoneConnect(f.hosts) && f.hosts[0] in f.hosts;
    case WorkerStep(i) =>
      assert NoneConnect(HostOf(s.workers[i]));
      if s.workers[i].phase.Got? {
        assert s.workers[i].phase.host in HostOf(s.workers[i]);
      }
  }

  lemma {:induction false} NobodyAsksRun(cfg: Config, s: State, steps: seq<Step>, t: State)
    requires NeedsNoPermit(cfg) && NobodyAsks(s) && Leads(cfg, s, steps, t)
    ensures NobodyAsks(t)
    decreases |steps|
  {
    hide NobodyAsks, NeedsNoPermit, Enabled, Apply;
    if steps != [] {
      NobodyAsksStep(cfg, s, steps[0]);
      NobodyAsksRun(cfg, Apply(cfg, s, steps[0]), steps[1..], t);
    }
  }

  lemma MovesWithoutPermits(cfg: Config, s: State) returns (step: Step)
    requires WellFormed(cfg) && Inv(cfg, s) && NobodyAsks(s) && !s.exited && s.main != Returned
    ensures Enabled(cfg, s, step)
  {
    hide Hosts, Permits;
    if s.pc < |cfg.script| || s.waitGroup == 0 {
      if s.pc < |cfg.script| {
        assert cfg.script[s.pc] in cfg.script;
      }
      step := MainStep;
    } else {
      hide WellFormed;
      SumNonNegative(s.workers, Counted);
      var i := SumWitness(s.workers, Counted);
      step := PoolEnabled(cfg, s, i);
    }
  }

  // ---------------------------------------------------------------- nobody gets a permit

  /** What a limit below one keeps: no permit changes hands, and whoever asks for one goes on asking. */
  predicate NobodyHolds(cfg: Config, s: State) {
    && s.free == cfg.limit && !s.exited && s.acquired == s.released == s.connects == 0 && s.pc <= |cfg.script|
    && (s.main.MainUsing? ==> s.main.session == Acquiring)
    && (!s.main.MainUsing? ==> forall op :: op in cfg.script[..s.pc] ==> !op.Connect?)
    && (forall i :: 0 <= i < |s.workers| && s.workers[i].phase.Using? ==> s.workers[i].phase.session == Acquiring)
  }

  lemma NobodyHoldsStep(cfg: Config, s: State, step: Step)
    requires cfg.limit < 1 && NobodyHolds(cfg, s) && Enabled(cfg, s, step)
    ensures NobodyHolds(cfg, Apply(cfg, s, step))
  {
    if step.MainStep? && s.pc < |cfg.script| {
      assert cfg.script[..s.pc + 1] == cfg.script[..s.pc] + [cfg.script[s.pc]];
    }
  }

  lemma {:induction false} NobodyHoldsRun(cfg: Config, s: State, steps: seq<Step>, t: State)
    requires cfg.limit < 1 && NobodyHolds(cfg, s) && Leads(cfg, s, steps, t)
    ensures NobodyHolds(cfg, t)
    decreases |steps|
  {
    hide NobodyHolds, Enabled, Apply;
    if steps != [] {
      NobodyHoldsStep(cfg, s, steps[0]);
      NobodyHoldsRun(cfg, Apply(cfg, s, steps[0]), steps[1..], t);
    }
  }

  /** Run on until nothing can move. */
  lemma {:induction false} RunOut(cfg: Config, s: State) returns (steps: seq<Step>, t: State)
    requires WellFormed(cfg) && Inv(cfg, s)
    ensures Leads(cfg, s, steps, t) && forall step :: !Enabled(cfg, t, step)
    decreases Rank(cfg, s)
  {
    hide Enabled, Apply, WellFormed, Rank;
    if step :| Enabled(cfg, s, step) {
      StepKeepsInv(cfg, s, step);
      StepLowersRank(cfg, s, step);
      RankAtLeastZero(cfg, s);
      RankAtLeastZero(cfg, Apply(cfg, s, step));
      var rest;
      rest, t := RunOut(cfg, Apply(cfg, s, step));
      steps := [step] + rest;
      assert steps[1..] == rest;
    } else {
      steps, t := [], s;
    }
  }

  lemma RankAtLeastZero(cfg: Config, s: State)
    requires Inv(cfg, s)
    ensures Rank(cfg, s) >= 0
  {
    RankNonNegative(cfg, s);
  }

  lemma {:induction false} NoPermitsNoConnections(hosts: seq<Host>)
    requires Sum(hosts, Permit) <= 0
    ensures NoneConnect(hosts)
  {
    if hosts != [] {
      SumNonNegative(hosts[1..], Permit);
      NoPermitsNoConnections(hosts[1..]);
    }
  }

  lemma {:induction false} PoolHostGathered(pools: seq<seq<Host>>, p: nat, h: Host)
    requires p < |pools| && h in pools[p]
    ensures h in Gather(pools, PoolHosts)
  {
    if p > 0 {
      PoolHostGathered(pools[1..], p - 1, h);
    }
  }

  /** If the main goroutine returns although the limit is below one, nothing needed a permit. */
  lemma ReturnsOnlyUnneeded(cfg: Config, steps: seq<Step>, t: State)
    requires WellFormed(cfg) && cfg.limit < 1 && Leads(cfg, Initial(cfg), steps, t) && t.main == Returned
    ensures NeedsNoPermit(cfg)
  {
    hide Leads, WellFormed;
    InitialNobodyHolds(cfg);
    NobodyHoldsRun(cfg, Initial(cfg), steps, t);
    AllHandledOnReturn(cfg, steps, t);
    ReachableInv(cfg, steps, t);
    assert cfg.script[..t.pc] == cfg.script;
    NoPermitsNoConnections(t.handled);
    InitialHosts(cfg);
    forall p | 0 <= p < |cfg.pools| ensures NoneConnect(cfg.pools[p]) {
      forall h | h in cfg.pools[p] ensures h.outcome == NoConnection {
        PoolHostGathered(cfg.pools, p, h);
        assert h in multiset(t.handled);
      }
    }
  }

  lemma InitialNobodyHolds(cfg: Config)
    ensures NobodyHolds(cfg, Initial(cfg))
  {
  }

  lemma StuckBelowOne(cfg: Config) returns (steps: seq<Step>, t: State)
    requires WellFormed(cfg) && cfg.limit < 1 && !NeedsNoPermit(cfg)
    ensures StuckRun(cfg, steps, t)
  {
    hide WellFormed, NeedsNoPermit, Inv, Enabled;
    InitialInv(cfg);
    steps, t := RunOut(cfg, Initial(cfg));
    InitialNobodyHolds(cfg);
    NobodyHoldsRun(cfg, Initial(cfg), steps, t);
    if t.main == Returned {
      ReturnsOnlyUnneeded(cfg, steps, t);
    }
  }

  /**
   * No run waits for ever if and only if there is a permit or nobody needs one. Where the collection can get stuck it
   * does so without any help of the scheduler.
   */
  lemma NeverStuckIff(cfg: Config)
    requires WellFormed(cfg)
    ensures !CanGetStuck(cfg) <==> cfg.limit >= 1 || NeedsNoPermit(cfg)
  {
    hide WellFormed, NeedsNoPermit, Enabled;
    if cfg.limit >= 1 {
      forall steps, t ensures !StuckRun(cfg, steps, t) {
        if StuckRun(cfg, steps, t) {
          NeverStuck(cfg, steps, t);
        }
      }
    } else if NeedsNoPermit(cfg) {
      forall steps, t ensures !StuckRun(cfg, steps, t) {
        if StuckRun(cfg, steps, t) {
          ReachableInv(cfg, steps, t);
          InitialNobodyAsks(cfg);
          NobodyAsksRun(cfg, Initial(cfg), steps, t);
          var step := MovesWithoutPermits(cfg, t);
        }
      }
    } else {
      var steps, t := StuckBelowOne(cfg);
    }
  }

  lemma InitialNobodyAsks(cfg: Config)
    requires NeedsNoPermit(cfg)
    ensures NobodyAsks(Initial(cfg))
  {
  }

  // ---------------------------------------------------------------- the core collection

  /** In terms of the settings: no cluster metrics for any broker, and no host of a started pool is connected to. */
  predicate CoreNeedsNoPermit(settings: Settings, inputs: Inputs) {
    && (settings.collectBrokers ==>
          && (settings.clusterMetrics ==> inputs.brokers == [])
          && NoneConnect(BrokerHosts(inputs.brokers))
          && (CollectsTopics(settings) ==> NoneConnect(inputs.topics)))
    && NoneConnect(inputs.consumers) && NoneConnect(inputs.producers)
  }

  lemma CoreNeeds(limit: int, settings: Settings, inputs: Inputs)
    ensures NeedsNoPermit(CoreConfig(limit, settings, inputs)) <==> CoreNeedsNoPermit(settings, inputs)
  {
    CoreConnects(settings, inputs);
    var pools := CoreConfig(limit, settings, inputs).pools;
    hide NoneConnect, Script;
    assert (forall p :: 0 <= p < |pools| ==> NoneConnect(pools[p]))
      <==> NoneConnect(pools[0]) && NoneConnect(pools[1]) && NoneConnect(pools[2]) && NoneConnect(pools[3]);
    EmptyNeedsNothing();
  }

  lemma EmptyNeedsNothing()
    ensures NoneConnect([])
  {
  }

  lemma CoreConnects(settings: Settings, inputs: Inputs)
    ensures (exists op :: op in Script(settings, inputs) && op.Connect?)
       <==> settings.collectBrokers && settings.clusterMetrics && inputs.brokers != []
  {
    ClientScriptOps();
    BrokerConnects(settings, inputs);
    hide BrokerScript, ClientScript;
    if settings.collectBrokers && settings.clusterMetrics && inputs.brokers != [] {
      assert Connect(ClusterHost(inputs)) in Script(settings, inputs);
    }
  }

  lemma BrokerConnects(settings: Settings, inputs: Inputs)
    ensures settings.clusterMetrics && inputs.brokers != []
         ==> Connect(ClusterHost(inputs)) in BrokerScript(settings, inputs)
    ensures !(settings.clusterMetrics && inputs.brokers != [])
        ==> forall op :: op in BrokerScript(settings, inputs) ==> !op.Connect?
  {
    BrokerConnections(settings, inputs);
    hide BrokerScript;
    ConnectedIff(BrokerScript(settings, inputs));
  }

  /**
   * The core collection never waits for ever if and only if the limit is at least one or nothing needs a connection.
   */
  lemma CoreNeverStuckIff(limit: int, settings: Settings, inputs: Inputs)
    requires ProperInputs(inputs)
    ensures !CanGetStuck(CoreConfig(limit, settings, inputs)) <==> limit >= 1 || CoreNeedsNoPermit(settings, inputs)
  {
    hide WellFormed, CanGetStuck, NeedsNoPermit, CoreNeedsNoPermit;
    CoreIsWellFormed(limit, settings, inputs);
    CoreNeeds(limit, settings, inputs);
    NeverStuckIff(CoreConfig(limit, settings, inputs));
  }

  /** One consumer to be collected and nothing else: with no permits its worker waits for ever. */
  lemma StuckWithoutPermits(limit: int) returns (steps: seq<Step>, t: State)
    requires limit <= 0
    ensures var host := Host(CONSUMER_POOL, "consumer", Collected);
            var inputs := Inputs([], [], [host], [], 0, Collected);
            StuckRun(CoreConfig(limit, Settings(false, false, false, false), inputs), steps, t)
  {
    var host := Host(CONSUMER_POOL, "consumer", Collected);
    var settings, inputs := Settings(false, false, false, false), Inputs([], [], [host], [], 0, Collected);
    assert !NoneConnect(inputs.consumers);
    hide CanGetStuck, StuckRun, CoreConfig;
    CoreNeverStuckIff(limit, settings, inputs);
    steps, t := StuckOf(CoreConfig(limit, settings, inputs));
  }

  lemma StuckOf(cfg: Config) returns (steps: seq<Step>, t: State)
    requires CanGetStuck(cfg)
    ensures StuckRun(cfg, steps, t)
  {
    hide StuckRun;
    steps, t :| StuckRun(cfg, steps, t);
  }
}
