/** How the rollups of one consumer group relate to each other. */
module LagTotals {
  import opened Wrappers
  import opened LagJobs
  import opened LagAggregates
  import opened Sums
  import Int64

  ghost function SumValues(m: map<string, int>): int
    decreases |m|
  {
    if m == map[] then 0
    else
      var k :| k in m;
      SumWithout(m, k);
      m[k] + SumValues(m - {k})
  }

  lemma SumWithout(m: map<string, int>, k: string)
    requires k in m
    ensures |m - {k}| == |m| - 1
  {
    assert (m - {k}).Keys == m.Keys - {k};
  }

  lemma {:induction false} SumValuesRemove(m: map<string, int>, k: string)
    requires k in m
    ensures SumValues(m) == m[k] + SumValues(m - {k})
    decreases |m|
  {
    var c :| c in m && SumValues(m) == m[c] + SumValues(m - {c});
    if c != k {
      SumWithout(m, c);
      SumWithout(m, k);
      SumValuesRemove(m - {c}, k);
      SumValuesRemove(m - {k}, c);
      assert m - {c} - {k} == m - {k} - {c};
    }
  }

  lemma SumValuesUpdate(m: map<string, int>, k: string, v: int)
    ensures SumValues(m[k := v]) == SumValues(m) - Get(m, k) + v
  {
    SumValuesRemove(m[k := v], k);
    if k in m {
      SumValuesRemove(m, k);
      assert m[k := v] - {k} == m - {k};
    } else {
      assert m[k := v] - {k} == m;
    }
  }

  /** Whatever the key, the entries of a rollup add up to the total lag (in 64-bit arithmetic). */
  lemma {:induction false} RollupTotal(ms: seq<PartitionLag>, key: PartitionLag -> string)
    ensures Int64.Wrap(SumValues(Rollup(ms, key))) == Int64.Wrap(Sum(ms, LagValue))
  {
    if ms == [] {
      assert Rollup(ms, key) == map[];
    } else {
      var init, m := ms[..|ms| - 1], ms[|ms| - 1];
      assert ms == init + [m];
      RollupTotal(init, key);
      RollupTotalStep(Rollup(init, key), key(m), m.lag, Sum(init, LagValue));
      RollupAppend(init, m, key);
      SumAppend(init, m, LagValue);
    }
  }

  lemma RollupTotalStep(r: map<string, int>, k: string, lag: int, total: int)
    requires Int64.Wrap(SumValues(r)) == Int64.Wrap(total)
    ensures Int64.Wrap(SumValues(WithLag(r, k, lag))) == Int64.Wrap(total + lag)
  {
    var before := Get(r, k);
    SumValuesUpdate(r, k, Int64.Wrap(before + lag));
    Int64.WrapAdd(before + lag, SumValues(r) - before);
    Int64.WrapCongruence(SumValues(r), total, lag);
  }

  ghost predicate OfGroup(ms: seq<PartitionLag>, group: string) {
    forall m :: m in ms ==> m.consumerGroup == group
  }

  lemma GroupEntry(ms: seq<PartitionLag>, group: string)
    requires OfGroup(ms, group)
    ensures Get(Rollup(ms, GroupKey), group) == Int64.Wrap(Sum(ms, LagValue))
  {
    RollupGet(ms, GroupKey, group);
    SumPointwise(ms, Share(GroupKey, group), ms, LagValue);
  }

  /** The group's total is the sum of its topics' totals, and the sum of its clients' totals. */
  lemma GroupTotal(ms: seq<PartitionLag>, group: string)
    requires OfGroup(ms, group)
    ensures var r := CGroupReport(true, ms);
            var total := Get(r.consumerGroupRollup, group);
            && total == Int64.Wrap(Sum(ms, LagValue))
            && total == Int64.Wrap(SumValues(r.topicRollup))
            && total == Int64.Wrap(SumValues(ClientReport(ms)))
            && r.consumerGroupRollup.Keys == if ms == [] then {} else {group}
  {
    RollupTotal(ms, TopicKey);
    RollupTotal(ms, ClientKey);
    GroupEntry(ms, group);
    assert ms != [] ==> ms[0] in ms;
    assert KeysOf(ms, GroupKey) == if ms == [] then {} else {group};
  }

  /** The group's maximum is the maximum of 0 and all lags, and of 0 and the topics' maxima. */
  lemma GroupMaximum(ms: seq<PartitionLag>, group: string)
    requires OfGroup(ms, group)
    ensures var r := CGroupReport(true, ms);
            var max := Get(r.consumerGroupMaxLagRollup, group);
            && max >= 0
            && (forall m :: m in ms ==> m.lag <= max)
            && (max > 0 ==> exists m :: m in ms && m.lag == max)
            && (forall t :: Get(r.topicMaxLagRollup, t) <= max)
            && (max > 0 ==> exists t :: t in r.topicMaxLagRollup && r.topicMaxLagRollup[t] == max)
  {
    PeakRollupGet(ms, GroupKey, group);
    PeakIsMaximum(ms, GroupKey, group);
    var max := Peak(ms, GroupKey, group);
    forall t
      ensures Get(PeakRollup(ms, TopicKey), t) <= max
    {
      PeakRollupGet(ms, TopicKey, t);
      PeakIsMaximum(ms, TopicKey, t);
    }
    if max > 0 {
      var m :| m in ms && m.lag == max;
      PeakIsMaximum(ms, TopicKey, m.topic);
      assert m.topic in PeakRollup(ms, TopicKey);
      assert Get(PeakRollup(ms, TopicKey), m.topic) <= max;
    }
  }

  /** The group's active clients are the union of its topics' active clients. */
  lemma GroupActiveClients(ms: seq<PartitionLag>)
    ensures var r := CGroupReport(true, ms);
            forall c :: c in r.cGroupActiveClientsRollup
              <==> exists t :: t in r.topicActiveClientsRollup && c in r.topicActiveClientsRollup[t]
  {
    var r := CGroupReport(true, ms);
    forall c | c in r.cGroupActiveClientsRollup
      ensures exists t :: t in r.topicActiveClientsRollup && c in r.topicActiveClientsRollup[t]
    {
      var m :| m in ms && m.clientID != "" && m.clientID == c;
      assert m.topic in r.topicActiveClientsRollup;
    }
  }

  predicate NonNegativeLags(ms: seq<PartitionLag>) {
    forall m :: m in ms ==> 0 <= m.lag <= Int64.MAX_INT64
  }

  /** Whether the largest lag of a key is at most its (64-bit) total. */
  ghost predicate MaximumBelowTotal(ms: seq<PartitionLag>, key: PartitionLag -> string, k: string) {
    Get(PeakRollup(ms, key), k) <= Get(Rollup(ms, key), k)
  }

  lemma FittingTotal(ms: seq<PartitionLag>, key: PartitionLag -> string, k: string)
    requires forall m :: m in ms ==> 0 <= m.lag <= Int64.MAX_INT64
    requires Sum(ms, Share(key, k)) <= Int64.MAX_INT64
    ensures MaximumBelowTotal(ms, key, k)
  {
    PeakRollupGet(ms, key, k);
    RollupGet(ms, key, k);
    PeakIsMaximum(ms, key, k);
    var share := Share(key, k);
    SumNonNegative(ms, share);
    if Peak(ms, key, k) > 0 {
      var m :| m in ms && key(m) == k && m.lag == Peak(ms, key, k);
      var i :| 0 <= i < |ms| && ms[i] == m;
      SumBoundsElement(ms, i, share);
    }
  }

  lemma SharesGrow(ms: seq<PartitionLag>, i: nat, key: PartitionLag -> string, k: string)
    requires NonNegativeLags(ms) && i <= |ms|
    ensures 0 <= Sum(ms[..i], Share(key, k)) <= Sum(ms, Share(key, k))
  {
    assert ms == ms[..i] + ms[i..];
    SumConcat(ms[..i], ms[i..], Share(key, k));
    SumNonNegative(ms[..i], Share(key, k));
    SumNonNegative(ms[i..], Share(key, k));
  }

  /** The first message that takes the exact total beyond 64 bits makes the stored total negative. */
  lemma {:induction false} FirstOverflow(ms: seq<PartitionLag>, key: PartitionLag -> string, k: string) returns (i: nat)
    requires NonNegativeLags(ms) && Sum(ms, Share(key, k)) > Int64.MAX_INT64
    ensures i <= |ms| && !MaximumBelowTotal(ms[..i], key, k)
  {
    var init, m := ms[..|ms| - 1], ms[|ms| - 1];
    assert ms == init + [m] && ms[..|ms|] == ms && m in ms;
    SumAppend(init, m, Share(key, k));
    if Sum(init, Share(key, k)) > Int64.MAX_INT64 {
      i := FirstOverflow(init, key, k);
      assert init[..i] == ms[..i];
    } else {
      i := |ms|;
      RollupGet(ms, key, k);
      assert Int64.Wrap(Sum(ms, Share(key, k))) < 0;
      PeakRollupGet(ms, key, k);
      PeakPositive(ms, key, k);
    }
  }

  /**
   * With non-negative lags, no maximum ever exceeds its total while the messages come in, if and only if the exact
   * total fits 64 bits. For the final values alone that is enough but not necessary: a total that wraps more than once
   * may end up above the maximum again.
   */
  lemma MaximumBelowTotalIff(ms: seq<PartitionLag>, key: PartitionLag -> string, k: string)
    requires forall m :: m in ms ==> 0 <= m.lag <= Int64.MAX_INT64
    ensures (forall i :: 0 <= i <= |ms| ==> MaximumBelowTotal(ms[..i], key, k))
         <==> Sum(ms, Share(key, k)) <= Int64.MAX_INT64
  {
    if Sum(ms, Share(key, k)) <= Int64.MAX_INT64 {
      forall i | 0 <= i <= |ms| ensures MaximumBelowTotal(ms[..i], key, k) {
        SharesGrow(ms, i, key, k);
        FittingTotal(ms[..i], key, k);
      }
    } else {
      var i := FirstOverflow(ms, key, k);
      assert !MaximumBelowTotal(ms[..i], key, k);
    }
  }

  /** Beyond 64 bits the maximum can exceed the (wrapped) total. */
  lemma TotalMayWrap()
    ensures var m := PartitionLag("c", "g", "t", Some(0), Int64.MAX_INT64);
            var r := CGroupReport(true, [m, m]);
            Get(r.consumerGroupRollup, "g") == -2 && Get(r.consumerGroupMaxLagRollup, "g") == Int64.MAX_INT64
  {
    var m := PartitionLag("c", "g", "t", Some(0), Int64.MAX_INT64);
    var ms := [m, m];
    GroupTotal(ms, "g");
    assert ms == [m] + [m];
    SumAppend([m], m, LagValue);
    SumSingle(m, LagValue);
    GroupMaximum(ms, "g");
    assert m in ms;
  }
}
