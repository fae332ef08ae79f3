/** When a connection error ends the process: exactly for which configurations, whatever the schedule. */
module ProcessExits {
  import opened JmxPools
  import opened CoreCollection
  import opened PermitNeeds
  import opened Sums

  predicate NoneExits(hosts: seq<Host>) {
    forall h :: h in hosts ==> h.outcome != Exits
  }

  predicate ConnectsExit(script: seq<Op>) {
    exists op :: op in script && op.Connect? && op.host.outcome == Exits
  }

  /** A listed host, or a host that the main goroutine connects to itself, breaks its connection in mid-query. */
  predicate BreaksConnection(cfg: Config) {
    || ConnectsExit(cfg.script)
    || exists p :: 0 <= p < |cfg.pools| && !NoneExits(cfg.pools[p])
  }

  // ---------------------------------------------------------------- what every step keeps

  /** A connection is open only to a host that opens, and only a host that does not exit gives its permit back. */
  predicate InOrder(session: Session, host: Host) {
    && (session == Connected ==> host.outcome != OpenFails)
    && (session == Releasing ==> host.outcome != Exits)
  }

  predicate WorkerInOrder(w: Worker) {
    w.phase.Using? ==> w.phase.host.outcome != NoConnection && InOrder(w.phase.session, w.phase.host)
  }

  /** So far nothing has broken: every host done and every connection of the main goroutine done was in order. */
  predicate Unbroken(cfg: Config, s: State) {
    && s.pc <= |cfg.script|
    && NoneExits(s.handled)
    && (forall i :: 0 <= i < |s.workers| ==> WorkerInOrder(s.workers[i]))
    && (s.main.MainUsing? ==>
          && s.pc > 0 && cfg.script[s.pc - 1] == Connect(s.main.host) && InOrder(s.main.session, s.main.host)
          && !ConnectsExit(cfg.script[..s.pc - 1]))
    && (!s.main.MainUsing? ==> !ConnectsExit(cfg.script[..s.pc]))
  }

  lemma OneMoreOp(script: seq<Op>, pc: nat)
    requires pc < |script|
    ensures ConnectsExit(script[..pc + 1]) <==>
            ConnectsExit(script[..pc]) || (script[pc].Connect? && script[pc].host.outcome == Exits)
  {
    assert script[..pc + 1] == script[..pc] + [script[pc]];
  }

  lemma MainUnbroken(cfg: Config, s: State)
    requires Unbroken(cfg, s) && Enabled(cfg, s, MainStep) && !ApplyMain(cfg, s).exited
    ensures Unbroken(cfg, ApplyMain(cfg, s))
  {
    if s.main.MainUsing? {
      OneMoreOp(cfg.script, s.pc - 1);
    } else if s.pc < |cfg.script| {
      OneMoreOp(cfg.script, s.pc);
    }
    hide ConnectsExit;
  }

  lemma WorkerUnbroken(cfg: Config, s: State, i: nat)
    requires Unbroken(cfg, s) && Enabled(cfg, s, WorkerStep(i)) && !ApplyWorker(s, i).exited
    ensures Unbroken(cfg, ApplyWorker(s, i))
  {
    hide ConnectsExit;
    assert WorkerInOrder(s.workers[i]);
  }

  lemma StepUnbroken(cfg: Config, s: State, step: Step)
    requires Unbroken(cfg, s) && Enabled(cfg, s, step) && !Apply(cfg, s, step).exited
    ensures Unbroken(cfg, Apply(cfg, s, step))
  {
    match step
    case MainStep => MainUnbroken(cfg, s);
    case WorkerStep(i) => WorkerUnbroken(cfg, s, i);
    case FeederStep(_) =>
    case HandOver(i) =>
      hide ConnectsExit, NoneExits;
  }

  lemma MainExitIsBroken(cfg: Config, s: State)
    requires Unbroken(cfg, s) && Enabled(cfg, s, MainStep) && ApplyMain(cfg, s).exited
    ensures ConnectsExit(cfg.script)
  {
    assert cfg.script[s.pc - 1] in cfg.script;
  }

  lemma WorkerExits(cfg: Config, s: State, i: nat)
    requires Enabled(cfg, s, WorkerStep(i)) && ApplyWorker(s, i).exited
    ensures s.workers[i].phase.Using? && s.workers[i].phase.host.outcome == Exits
  {
  }

  lemma HeldIsThere(s: State, i: nat)
    requires i < |s.workers| && s.workers[i].phase.Using?
    ensures s.workers[i].phase.host in Hosts(s)
  {
    GatherSplit(s.workers, i, HeldHosts);
    assert s.workers[i].phase.host in HeldHosts(s.workers[i]);
    hide Gather, HeldHosts;
  }

  lemma ListedExitIsBroken(cfg: Config, h: Host)
    requires h in Hosts(Initial(cfg)) && h.outcome == Exits
    ensures BreaksConnection(cfg)
  {
    InitialHosts(cfg);
    HostIsListed(cfg.pools, h);
    hide Hosts, Gather, ConnectsExit;
  }

  /** A step that ends the process is a broken connection, of a listed host or of the main goroutine's own. */
  lemma ExitIsBroken(cfg: Config, s: State, step: Step)
    requires Inv(cfg, s) && Unbroken(cfg, s) && Enabled(cfg, s, step) && Apply(cfg, s, step).exited
    ensures BreaksConnection(cfg)
  {
    match step
    case MainStep =>
      hide Inv, ConnectsExit, Unbroken, ApplyMain;
      MainExitIsBroken(cfg, s);
    case WorkerStep(i) =>
      hide Permits, Control, Hosts, BreaksConnection, Unbroken, ApplyWorker;
      WorkerExits(cfg, s, i);
      HeldIsThere(s, i);
      ListedExitIsBroken(cfg, s.workers[i].phase.host);
    case _ =>
  }

  lemma {:induction false} HostIsListed(pools: seq<seq<Host>>, h: Host)
    ensures h in Gather(pools, PoolHosts) <==> exists p :: 0 <= p < |pools| && h in pools[p]
  {
    if pools != [] {
      HostIsListed(pools[1..], h);
      assert h in PoolHosts(pools[0]) <==> h in pools[0];
      assert pools == [pools[0]] + pools[1..];
      if p :| 0 <= p < |pools| && h in pools[p] && p > 0 {
        assert pools[1..][p - 1] == pools[p];
      }
    }
  }

  lemma NothingAfterExit(cfg: Config, s: State, steps: seq<Step>, t: State)
    requires s.exited && Leads(cfg, s, steps, t)
    ensures t == s
  {
  }

  lemma {:induction false} RunUnbroken(cfg: Config, s: State, steps: seq<Step>, t: State)
    requires WellFormed(cfg) && Inv(cfg, s) && Unbroken(cfg, s) && !s.exited && Leads(cfg, s, steps, t)
    ensures if t.exited then BreaksConnection(cfg) else Unbroken(cfg, t)
    decreases |steps|
  {
    hide Inv, Unbroken, BreaksConnection, WellFormed, Apply;
    if steps != [] {
      var n := Apply(cfg, s, steps[0]);
      StepKeepsInv(cfg, s, steps[0]);
      if n.exited {
        ExitIsBroken(cfg, s, steps[0]);
        NothingAfterExit(cfg, n, steps[1..], t);
      } else {
        hide Enabled;
        StepUnbroken(cfg, s, steps[0]);
        RunUnbroken(cfg, n, steps[1..], t);
      }
    }
  }

  lemma InitialUnbroken(cfg: Config)
    ensures Unbroken(cfg, Initial(cfg)) && !Initial(cfg).exited
  {
  }

  /** Nothing is left to break once the main goroutine has returned. */
  lemma ReturnedUnbroken(cfg: Config, steps: seq<Step>, t: State)
    requires WellFormed(cfg) && Leads(cfg, Initial(cfg), steps, t) && t.main == Returned && Unbroken(cfg, t)
    ensures !BreaksConnection(cfg)
  {
    AllHandledOnReturn(cfg, steps, t);
    ReachableInv(cfg, steps, t);
    InitialHosts(cfg);
    assert t.pc == |cfg.script| && cfg.script[..t.pc] == cfg.script;
    hide Leads, WellFormed, Inv, Hosts, Gather, ConnectsExit;
    forall p | 0 <= p < |cfg.pools| ensures NoneExits(cfg.pools[p]) {
      forall h | h in cfg.pools[p] ensures h.outcome != Exits {
        HostIsListed(cfg.pools, h);
        assert h in multiset(t.handled);
      }
    }
  }

  /**
   * A complete run, one that returned or was ended, was ended if and only if some host breaks its connection: then no
   * schedule lets the main goroutine return, and otherwise no schedule ends the process.
   */
  lemma ExitsIff(cfg: Config, steps: seq<Step>, t: State)
    requires WellFormed(cfg) && Leads(cfg, Initial(cfg), steps, t) && (t.exited || t.main == Returned)
    ensures t.exited <==> BreaksConnection(cfg)
  {
    hide *;
    InitialInv(cfg);
    InitialUnbroken(cfg);
    RunUnbroken(cfg, Initial(cfg), steps, t);
    if !t.exited {
      ReturnedUnbroken(cfg, steps, t);
    }
  }

  // ---------------------------------------------------------------- what was collected was connected to

  ghost predicate ConnectedTo(s: State, host: Host) {
    exists i :: 0 <= i < |s.workers| && s.workers[i].phase == Using(Connected, host)
  }

  /** Some state on the way from `s` along the schedule has a worker connected to the host. */
  ghost predicate ConnectsOnTheWay(cfg: Config, s: State, steps: seq<Step>, host: Host)
    decreases |steps|
  {
    || ConnectedTo(s, host)
    || (steps != [] && Enabled(cfg, s, steps[0]) && ConnectsOnTheWay(cfg, Apply(cfg, s, steps[0]), steps[1..], host))
  }

  /** No worker is giving the host's permit back, and it is not done. */
  ghost predicate NotYet(s: State, host: Host) {
    && host !in s.handled
    && forall i :: 0 <= i < |s.workers| ==> s.workers[i].phase != Using(Releasing, host)
  }

  lemma StillNotYet(cfg: Config, s: State, step: Step, host: Host)
    requires host.outcome == Collected && NotYet(s, host) && !ConnectedTo(s, host) && Enabled(cfg, s, step)
    ensures NotYet(Apply(cfg, s, step), host)
  {
  }

  lemma {:induction false} DoneOnTheWay(cfg: Config, s: State, steps: seq<Step>, t: State, host: Host)
    requires host.outcome == Collected && NotYet(s, host) && Leads(cfg, s, steps, t) && host in t.handled
    ensures ConnectsOnTheWay(cfg, s, steps, host)
    decreases |steps|
  {
    hide NotYet, ConnectedTo, Enabled, Apply;
    if steps == [] {
      DoneIsNotYet(s, host);
    } else if !ConnectedTo(s, host) {
      StillNotYet(cfg, s, steps[0], host);
      DoneOnTheWay(cfg, Apply(cfg, s, steps[0]), steps[1..], t, host);
    }
  }

  lemma DoneIsNotYet(s: State, host: Host)
    ensures NotYet(s, host) ==> host !in s.handled
  {
  }

  /** Every host that is to be collected and is done has been connected to, under every schedule. */
  lemma CollectedWasConnected(cfg: Config, steps: seq<Step>, t: State, host: Host)
    requires Leads(cfg, Initial(cfg), steps, t) && host in t.handled && host.outcome == Collected
    ensures ConnectsOnTheWay(cfg, Initial(cfg), steps, host)
  {
    DoneOnTheWay(cfg, Initial(cfg), steps, t, host);
  }

  /** No state that can be reached has a worker connected to a host that does not open or needs no connection. */
  lemma ConnectedOpens(cfg: Config, steps: seq<Step>, t: State, host: Host)
    requires WellFormed(cfg) && Leads(cfg, Initial(cfg), steps, t) && !t.exited && ConnectedTo(t, host)
    ensures host.outcome == Collected || host.outcome == Exits
  {
    InitialInv(cfg);
    InitialUnbroken(cfg);
    RunUnbroken(cfg, Initial(cfg), steps, t);
    hide Leads, Inv, ConnectsExit, NoneExits;
  }

  // ---------------------------------------------------------------- the core collection

  predicate SomeExits(hosts: seq<Host>) {
    exists h :: h in hosts && h.outcome == Exits
  }

  /** The only connection of the main goroutine that can end the process is the one for the cluster metrics. */
  lemma BrokerConnectsExit(settings: Settings, inputs: Inputs)
    ensures ConnectsExit(BrokerScript(settings, inputs)) <==>
            settings.clusterMetrics && inputs.brokers != [] && inputs.clusterOutcome == Exits
  {
    var script := BrokerScript(settings, inputs);
    var hosts := HostsConnected(script);
    BrokerConnections(settings, inputs);
    ConnectedIff(script);
    hide BrokerScript, HostsConnected;
    assert ConnectsExit(script) <==> SomeExits(hosts);
    if settings.clusterMetrics && inputs.brokers != [] {
      var n := |inputs.brokers|;
      assert hosts[n] in hosts && forall i :: 0 <= i < n ==> hosts[i].outcome != Exits;
    }
  }

  lemma ScriptConnectsExit(settings: Settings, inputs: Inputs)
    ensures ConnectsExit(Script(settings, inputs)) <==>
            settings.collectBrokers && ConnectsExit(BrokerScript(settings, inputs))
  {
    ClientScriptOps();
    hide BrokerScript, ClientScript;
  }

  lemma CoreBreaks(limit: int, settings: Settings, inputs: Inputs)
    ensures var pools := CoreConfig(limit, settings, inputs).pools;
            BreaksConnection(CoreConfig(limit, settings, inputs)) <==>
            || ConnectsExit(Script(settings, inputs))
            || SomeExits(pools[0]) || SomeExits(pools[1]) || SomeExits(pools[2]) || SomeExits(pools[3])
  {
    var pools := CoreConfig(limit, settings, inputs).pools;
    hide Script, ConnectsExit;
    assert forall p :: 0 <= p < |pools| ==> (SomeExits(pools[p]) <==> !NoneExits(pools[p]));
    hide SomeExits, NoneExits;
    assert |pools| == 4;
  }

  /** In terms of the settings: which connection errors are due. */
  predicate ExitIsDue(settings: Settings, inputs: Inputs) {
    || (exists h :: h in inputs.consumers && h.outcome == Exits)
    || (exists h :: h in inputs.producers && h.outcome == Exits)
    || (settings.collectBrokers
        && (|| (exists b :: b in inputs.brokers && b.host.outcome == Exits)
            || ((!settings.localOnly || settings.forceTopicSamples)
                && exists h :: h in inputs.topics && h.outcome == Exits)
            || (settings.clusterMetrics && inputs.brokers != [] && inputs.clusterOutcome == Exits)))
  }

  lemma PoolsExit(limit: int, settings: Settings, inputs: Inputs)
    ensures var pools := CoreConfig(limit, settings, inputs).pools;
            && (SomeExits(pools[0]) <==> settings.collectBrokers
                                         && exists b :: b in inputs.brokers && b.host.outcome == Exits)
            && (SomeExits(pools[1]) <==> settings.collectBrokers && (!settings.localOnly || settings.forceTopicSamples)
                                         && exists h :: h in inputs.topics && h.outcome == Exits)
            && (SomeExits(pools[2]) <==> exists h :: h in inputs.consumers && h.outcome == Exits)
            && (SomeExits(pools[3]) <==> exists h :: h in inputs.producers && h.outcome == Exits)
  {
    BrokersExit(inputs.brokers);
    hide Script, BrokerHosts;
  }

  lemma CoreBreaksIff(limit: int, settings: Settings, inputs: Inputs)
    ensures BreaksConnection(CoreConfig(limit, settings, inputs)) <==> ExitIsDue(settings, inputs)
  {
    hide Script, BrokerScript, ConnectsExit, BreaksConnection, SomeExits, CoreConfig;
    CoreBreaks(limit, settings, inputs);
    ScriptConnectsExit(settings, inputs);
    BrokerConnectsExit(settings, inputs);
    PoolsExit(limit, settings, inputs);
  }

  /**
   * A complete core collection is ended by a connection error if and only if one is due: at a consumer, a producer, a
   * broker or a topic that is collected, or at the broker chosen for the cluster metrics.
   */
  lemma CoreExitsIff(limit: int, settings: Settings, inputs: Inputs, steps: seq<Step>, t: State)
    requires ProperInputs(inputs) && (t.exited || t.main == Returned)
    requires Leads(CoreConfig(limit, settings, inputs), Initial(CoreConfig(limit, settings, inputs)), steps, t)
    ensures t.exited <==> ExitIsDue(settings, inputs)
  {
    hide *;
    CoreIsWellFormed(limit, settings, inputs);
    ExitsIff(CoreConfig(limit, settings, inputs), steps, t);
    CoreBreaksIff(limit, settings, inputs);
  }

  lemma BrokersExit(brokers: seq<Broker>)
    ensures SomeExits(BrokerHosts(brokers)) <==> exists b :: b in brokers && b.host.outcome == Exits
  {
    forall i | 0 <= i < |brokers| ensures brokers[i].host in BrokerHosts(brokers) {
      assert BrokerHosts(brokers)[i] == brokers[i].host;
    }
  }
}
