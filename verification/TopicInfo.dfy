/** What a topic records about its collected partitions, and which of it depends on the order they arrive in. */
module TopicInfo {
  import opened Wrappers
  import opened PartitionNetwork
  import opened CollectionOrder
  import opened Sums

  function NonPreferred(p: Partition): int {
    if p.replicas != [] && p.leader != p.replicas[0] then 1 else 0
  }

  function UnderReplicated(p: Partition): int {
    if |p.inSync| < |p.replicas| then 1 else 0
  }

  class Topic {
    var partitions: seq<Partition>
    var partitionCount: int
    var replicationFactor: int

    constructor ()
      ensures partitions == [] && partitionCount == 0 && replicationFactor == 0
    {
      partitions, partitionCount, replicationFactor := [], 0, 0;
    }

    /** The replication factor is taken from whichever partition was collected first. */
    method SetTopicInfo(collected: seq<Partition>)
      modifies this
      ensures partitions == collected && partitionCount == |collected|
      ensures replicationFactor == if collected == [] then old(replicationFactor) else |collected[0].replicas|
    {
      partitions, partitionCount := collected, |collected|;
      if |collected| > 0 {
        replicationFactor := |collected[0].replicas|;
      }
    }
  }

  method CalculateNonPreferredLeader(partitions: seq<Partition>) returns (count: int)
    requires forall p :: p in partitions ==> p.replicas != []
    ensures count == Sum(partitions, NonPreferred)
    ensures var moved := set i | 0 <= i < |partitions| && partitions[i].leader != partitions[i].replicas[0];
            count == |moved|
  {
    NonPreferredPositions(partitions);
    count := 0;
    for i := 0 to |partitions|
      invariant count == Sum(partitions[..i], NonPreferred)
    {
      SumAppend(partitions[..i], partitions[i], NonPreferred);
      assert partitions[..i + 1] == partitions[..i] + [partitions[i]];
      assert partitions[i] in partitions;
      if partitions[i].leader != partitions[i].replicas[0] {
        count := count + 1;
      }
    }
    assert partitions[..|partitions|] == partitions;
  }

  method CalculateUnderReplicatedCount(partitions: seq<Partition>) returns (count: int)
    ensures count == Sum(partitions, UnderReplicated)
    ensures var short := set i | 0 <= i < |partitions| && |partitions[i].inSync| < |partitions[i].replicas|;
            count == |short|
  {
    UnderReplicatedPositions(partitions);
    count := 0;
    for i := 0 to |partitions|
      invariant count == Sum(partitions[..i], UnderReplicated)
    {
      SumAppend(partitions[..i], partitions[i], UnderReplicated);
      assert partitions[..i + 1] == partitions[..i] + [partitions[i]];
      if |partitions[i].inSync| < |partitions[i].replicas| {
        count := count + 1;
      }
    }
    assert partitions[..|partitions|] == partitions;
  }

  /** The count is the number of positions whose leader is not the first replica. */
  lemma NonPreferredPositions(partitions: seq<Partition>)
    requires forall p :: p in partitions ==> p.replicas != []
    ensures var moved := set i | 0 <= i < |partitions| && partitions[i].leader != partitions[i].replicas[0];
            Sum(partitions, NonPreferred) == |moved|
  {
    var moved := set i | 0 <= i < |partitions| && partitions[i].leader != partitions[i].replicas[0];
    SumOfFlags(partitions, NonPreferred, moved);
  }

  /** The count is the number of positions with fewer in-sync replicas than replicas. */
  lemma UnderReplicatedPositions(partitions: seq<Partition>)
    ensures var short := set i | 0 <= i < |partitions| && |partitions[i].inSync| < |partitions[i].replicas|;
            Sum(partitions, UnderReplicated) == |short|
  {
    var short := set i | 0 <= i < |partitions| && |partitions[i].inSync| < |partitions[i].replicas|;
    SumOfFlags(partitions, UnderReplicated, short);
  }

  ghost predicate Collects(cfg: Config, steps: seq<Step>, t: State) {
    cfg.workers >= 1 && Leads(cfg, Initial(cfg), steps, t) && t.main == Returned
  }

  /** The partition count and both leader/replica counts are the same under every schedule. */
  lemma CountsAreScheduleIndependent(cfg: Config, steps: seq<Step>, t: State)
    requires Collects(cfg, steps, t)
    ensures |t.collected| == |Expected(cfg.lookups)|
    ensures Sum(t.collected, NonPreferred) == Sum(Expected(cfg.lookups), NonPreferred)
    ensures Sum(t.collected, UnderReplicated) == Sum(Expected(cfg.lookups), UnderReplicated)
  {
    CollectsExactly(cfg, steps, t);
    hide Leads, Expected;
    var expected := Expected(cfg.lookups);
    assert |multiset(t.collected)| == |multiset(expected)|;
    SumPermutation(t.collected, expected, NonPreferred);
    SumPermutation(t.collected, expected, UnderReplicated);
  }

  function Factor(ps: seq<Partition>): int
    requires ps != []
  {
    |ps[0].replicas|
  }

  predicate UniformReplicas(ps: seq<Partition>) {
    forall p, q :: p in ps && q in ps ==> |p.replicas| == |q.replicas|
  }

  /** All complete runs that collect anything record the same factor. */
  ghost predicate FactorIsFixed(cfg: Config) {
    forall steps1, t1, steps2, t2 ::
      Collects(cfg, steps1, t1) && t1.collected != [] && Collects(cfg, steps2, t2) && t2.collected != []
      ==> Factor(t1.collected) == Factor(t2.collected)
  }

  lemma FirstIsCandidate(cfg: Config, steps: seq<Step>, t: State)
    requires PositiveCapacities(cfg) && Collects(cfg, steps, t) && t.collected != []
    ensures t.collected[0] in FirstCandidates(cfg)
  {
    assert ComesFirst(cfg, steps, t, t.collected[0]);
    ComesFirstIff(cfg, t.collected[0]);
  }

  /** Every candidate's replica count is the factor of some complete run. */
  lemma RunFor(cfg: Config, p: Partition) returns (steps: seq<Step>, t: State)
    requires PositiveCapacities(cfg) && p in FirstCandidates(cfg)
    ensures Collects(cfg, steps, t) && t.collected != [] && Factor(t.collected) == |p.replicas|
  {
    ComesFirstIff(cfg, p);
    steps, t :| ComesFirst(cfg, steps, t, p);
  }

  /**
   * The recorded factor does not depend on the schedule if and only if the partitions that can arrive first, and they
   * are known from the configuration, have as many replicas.
   */
  lemma FactorIndependentIff(cfg: Config)
    requires PositiveCapacities(cfg)
    ensures FactorIsFixed(cfg) <==> UniformReplicas(FirstCandidates(cfg))
  {
    hide FirstCandidates, Collects;
    if UniformReplicas(FirstCandidates(cfg)) {
      forall steps1, t1, steps2, t2 |
        Collects(cfg, steps1, t1) && t1.collected != [] && Collects(cfg, steps2, t2) && t2.collected != []
        ensures Factor(t1.collected) == Factor(t2.collected)
      {
        FirstIsCandidate(cfg, steps1, t1);
        FirstIsCandidate(cfg, steps2, t2);
      }
    }
    if FactorIsFixed(cfg) {
      forall p, q | p in FirstCandidates(cfg) && q in FirstCandidates(cfg) ensures |p.replicas| == |q.replicas| {
        var steps1, t1 := RunFor(cfg, p);
        var steps2, t2 := RunFor(cfg, q);
      }
    }
  }

  /** A single worker keeps the order, so that its runs always agree. */
  lemma OneWorkerFixesFactor(cfg: Config)
    requires PositiveCapacities(cfg) && cfg.workers == 1
    ensures FactorIsFixed(cfg)
  {
    assert Hold(cfg) == 0;
    FactorIndependentIff(cfg);
  }

  /** When the other workers can hold all answered partitions but one, every partition counts. */
  lemma AmpleWorkersIff(cfg: Config)
    requires PositiveCapacities(cfg) && |Expected(cfg.lookups)| <= Hold(cfg) + 1
    ensures FactorIsFixed(cfg) <==> UniformReplicas(Expected(cfg.lookups))
  {
    assert FirstCandidates(cfg) == Expected(cfg.lookups);
    FactorIndependentIff(cfg);
  }

  /** Two workers, two partitions with one and two replicas. */
  const MIXED := Config(2, 20, 20, 1, [
    Lookups(Some(1), Some([1]), Some([]), Some([1])),
    Lookups(Some(1), Some([1, 2]), Some([]), Some([1, 2]))])

  /** Two complete runs over the same answers that record different factors. */
  lemma FactorDependsOnSchedule() returns (steps1: seq<Step>, t1: State, steps2: seq<Step>, t2: State)
    ensures Collects(MIXED, steps1, t1) && t1.collected != [] && Factor(t1.collected) == 1
    ensures Collects(MIXED, steps2, t2) && t2.collected != [] && Factor(t2.collected) == 2
  {
    steps1, t1 := MixedRun(0);
    steps2, t2 := MixedRun(1);
  }

  lemma MixedRun(j: nat) returns (steps: seq<Step>, t: State)
    requires j < 2
    ensures Collects(MIXED, steps, t) && t.collected != [] && Factor(t.collected) == j + 1
  {
    hide Leads;
    assert MIXED.lookups[..0] == [] && MIXED.lookups[..1][..0] == [];
    assert Answers(MIXED, j) <= 1;
    steps, t := CanComeFirst(MIXED, j);
  }

  /** With uniform replica counts every schedule that collects a partition records the same factor. */
  lemma FactorIsScheduleIndependent(cfg: Config, steps: seq<Step>, t: State)
    requires Collects(cfg, steps, t) && t.collected != []
    requires UniformReplicas(Expected(cfg.lookups))
    ensures Expected(cfg.lookups) != [] && Factor(t.collected) == Factor(Expected(cfg.lookups))
  {
    CollectsExactly(cfg, steps, t);
    hide Leads, Expected;
    var expected := Expected(cfg.lookups);
    assert t.collected[0] in multiset(expected);
    assert t.collected[0] in expected && expected[0] in expected;
  }
}
