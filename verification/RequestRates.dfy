/** The request metrics of a broker: versioned responses rolled up under one attribute prefix. */
module RequestRates {
  import opened Wrappers
  import opened Strings
  import opened MetricLookup

  const RATE_SUFFIX := "attr=OneMinuteRate"

  const REQUEST_SET := MetricSet(
    "kafka.network:type=RequestMetrics,name=RequestsPerSec,request=*,*",
    "kafka.network:type=RequestMetrics,name=RequestsPerSec,",
    [ MetricDefinition("request.produceRequestsPerSecond", "request=Produce"),
      MetricDefinition("request.fetchConsumerRequestsPerSecond", "request=FetchConsumer"),
      MetricDefinition("request.fetchFollowerRequestsPerSecond", "request=FetchFollower"),
      MetricDefinition("request.metadataRequestsPerSecond", "request=Metadata"),
      MetricDefinition("request.offsetCommitRequestsPerSecond", "request=OffsetCommit"),
      MetricDefinition("request.listGroupsRequestsPerSecond", "request=ListGroups") ])

  predicate Matches(r: Response, prefix: string) {
    HasPrefix(r.name, prefix) && HasSuffix(r.name, RATE_SUFFIX)
  }

  // ---------------------------------------------------------------- sums over the responses that satisfy a condition

  ghost function SumWhere(results: seq<Response>, counts: Response -> bool): real {
    if results == [] then 0.0
    else
      var last := results[|results| - 1];
      SumWhere(results[..|results| - 1], counts) + if counts(last) && last.value.Number? then last.value.value else 0.0
  }

  ghost function RateFor(results: seq<Response>, prefix: string): real {
    SumWhere(results, r => Matches(r, prefix))
  }

  ghost predicate AnyMatch(results: seq<Response>, prefix: string) {
    exists r :: r in results && Matches(r, prefix)
  }

  /** One more response adds its own value if it matches and is a number, and nothing otherwise. */
  lemma OneMoreResponse(results: seq<Response>, prefix: string, name: string, isError: bool, value: Value)
    ensures RateFor([], prefix) == 0.0
    ensures RateFor(results + [Response(name, isError, value)], prefix)
         == RateFor(results, prefix)
            + if HasPrefix(name, prefix) && HasSuffix(name, "attr=OneMinuteRate") && value.Number?
              then value.value else 0.0
    ensures AnyMatch(results + [Response(name, isError, value)], prefix) <==>
            AnyMatch(results, prefix) || (HasPrefix(name, prefix) && HasSuffix(name, "attr=OneMinuteRate"))
  {
    var r := Response(name, isError, value);
    hide HasPrefix, HasSuffix;
    assert (results + [r])[..|results|] == results;
    assert Matches(r, prefix) <==> HasPrefix(name, prefix) && HasSuffix(name, "attr=OneMinuteRate");
    assert forall x :: x in results + [r] <==> x in results || x == r;
    hide Matches;
  }

  method RollUp(results: seq<Response>, prefix: string) returns (versionRollup: real, found: bool)
    ensures versionRollup == RateFor(results, prefix)
    ensures found <==> AnyMatch(results, prefix)
    ensures results == [] ==> versionRollup == 0.0
    ensures results != [] ==>
              var r := results[|results| - 1];
              versionRollup == RateFor(results[..|results| - 1], prefix)
                               + if HasPrefix(r.name, prefix) && HasSuffix(r.name, "attr=OneMinuteRate")
                                    && r.value.Number? then r.value.value else 0.0
  {
    versionRollup, found := 0.0, false;
    hide HasPrefix, HasSuffix;
    for i := 0 to |results|
      invariant versionRollup == RateFor(results[..i], prefix)
      invariant found <==> AnyMatch(results[..i], prefix)
    {
      OneMoreResponse(results[..i], prefix, results[i].name, results[i].isError, results[i].value);
      assert results[..i + 1] == results[..i] + [results[i]];
      hide RateFor, AnyMatch;
      if HasPrefix(results[i].name, prefix) && HasSuffix(results[i].name, RATE_SUFFIX) {
        found := true;
        if !results[i].value.Number? {
          continue;
        }
        versionRollup := versionRollup + results[i].value.value;
      }
    }
    if results != [] {
      var r := results[|results| - 1];
      OneMoreResponse(results[..|results| - 1], prefix, r.name, r.isError, r.value);
      assert results == results[..|results| - 1] + [r];
    }
    assert results[..|results|] == results;
  }

  // ---------------------------------------------------------------- the collection

  ghost function RolledUp(metricSet: MetricSet, results: seq<Response>, j: nat): Option<Value>
    requires j < |metricSet.definitions|
  {
    var prefix := metricSet.prefix + metricSet.definitions[j].attribute;
    if AnyMatch(results, prefix) then Some(Number(RateFor(results, prefix))) else None
  }

  ghost function RateEvents(metricSet: MetricSet, results: seq<Response>, accepts: nat -> bool, n: nat): seq<Event>
    requires n <= |metricSet.definitions|
  {
    if n == 0 then []
    else
      RateEvents(metricSet, results, accepts, n - 1)
      + [EventOf(metricSet.definitions[n - 1].name, RolledUp(metricSet, results, n - 1), accepts(n - 1))]
  }

  ghost function RequestEvents(sets: seq<MetricSet>, world: World, n: nat): seq<Event>
    requires n <= |sets|
  {
    if n == 0 then []
    else
      var reply := ReplyFor(sets, None, world, n - 1);
      RequestEvents(sets, world, n - 1)
      + if reply.Answered?
        then RateEvents(sets[n - 1], reply.results, AcceptsOf(world, n - 1), |sets[n - 1].definitions|) else []
  }

  /** `done` sets are collected before a query fails with anything but a JMX error; all of them when none does. */
  method CollectBrokerRequestMetrics(sample: Sample, sets: seq<MetricSet>, world: World)
    returns (notFound: seq<string>, done: nat)
    modifies sample
    ensures done <= |sets| && NoneLost(sets, None, world, done)
    ensures done < |sets| ==> ReplyFor(sets, None, world, done).ConnectionLost?
    ensures sample.metrics == Apply(old(sample.metrics), RequestEvents(sets, world, done))
    ensures notFound == MissingNames(RequestEvents(sets, world, done))
  {
    notFound, done := [], 0;
    NoRequests(sets, world, sample.metrics);
    hide *;
    while done < |sets|
      invariant done <= |sets| && NoneLost(sets, None, world, done)
      invariant sample.metrics == Apply(old(sample.metrics), RequestEvents(sets, world, done))
      invariant notFound == MissingNames(RequestEvents(sets, world, done))
    {
      RequestStep(sets, world, done, old(sample.metrics));
      OneMoreReply(sets, None, world, done);
      var reply := ReplyFor(sets, None, world, done);
      if reply.ConnectionLost? {
        return;
      }
      if reply.Answered? {
        var missing := CollectRates(sample, sets[done], reply.results, AcceptsOf(world, done));
        notFound := notFound + missing;
      }
      done := done + 1;
    }
  }

  lemma NoRequests(sets: seq<MetricSet>, world: World, metrics: map<string, Value>)
    ensures Apply(metrics, RequestEvents(sets, world, 0)) == metrics
    ensures MissingNames(RequestEvents(sets, world, 0)) == []
    ensures NoneLost(sets, None, world, 0)
  {
  }

  lemma RequestStep(sets: seq<MetricSet>, world: World, i: nat, metrics: map<string, Value>)
    requires i < |sets|
    ensures var before, after := RequestEvents(sets, world, i), RequestEvents(sets, world, i + 1);
            var reply := ReplyFor(sets, None, world, i);
            if reply.Answered? then
              var events := RateEvents(sets[i], reply.results, AcceptsOf(world, i), |sets[i].definitions|);
              && Apply(metrics, after) == Apply(Apply(metrics, before), events)
              && MissingNames(after) == MissingNames(before) + MissingNames(events)
            else
              Apply(metrics, after) == Apply(metrics, before) && MissingNames(after) == MissingNames(before)
  {
    var before, reply := RequestEvents(sets, world, i), ReplyFor(sets, None, world, i);
    if reply.Answered? {
      hide Apply, MissingNames, RateEvents;
      var events := RateEvents(sets[i], reply.results, AcceptsOf(world, i), |sets[i].definitions|);
      ApplyConcat(metrics, before, events);
      MissingConcat(before, events);
    } else {
      assert before + [] == before;
    }
  }

  method CollectRates(sample: Sample, metricSet: MetricSet, results: seq<Response>, accepts: nat -> bool)
    returns (notFound: seq<string>)
    modifies sample
    ensures var events := RateEvents(metricSet, results, accepts, |metricSet.definitions|);
            sample.metrics == Apply(old(sample.metrics), events) && notFound == MissingNames(events)
  {
    notFound := [];
    for j := 0 to |metricSet.definitions|
      invariant sample.metrics == Apply(old(sample.metrics), RateEvents(metricSet, results, accepts, j))
      invariant notFound == MissingNames(RateEvents(metricSet, results, accepts, j))
    {
      RateStep(metricSet, results, accepts, j, old(sample.metrics));
      hide RateEvents, Apply, MissingNames, RateFor, AnyMatch;
      var definition := metricSet.definitions[j];
      var versionRollup, found := RollUp(results, metricSet.prefix + definition.attribute);
      if !found {
        notFound := notFound + [definition.name];
        continue;
      }
      sample.SetMetric(definition.name, Number(versionRollup), accepts(j));
    }
  }

  lemma RateStep(
    metricSet: MetricSet, results: seq<Response>, accepts: nat -> bool, j: nat, metrics: map<string, Value>)
    requires j < |metricSet.definitions|
    ensures var before := RateEvents(metricSet, results, accepts, j);
            var after := RateEvents(metricSet, results, accepts, j + 1);
            var name, found := metricSet.definitions[j].name, RolledUp(metricSet, results, j);
            && Apply(metrics, after) == (if found.Some? && accepts(j) then Apply(metrics, before)[name := found.value]
                                         else Apply(metrics, before))
            && MissingNames(after) == MissingNames(before) + if found.None? then [name] else []
  {
    var before, after := RateEvents(metricSet, results, accepts, j), RateEvents(metricSet, results, accepts, j + 1);
    assert after[..|after| - 1] == before;
  }

  lemma {:induction false} RateEventAt(metricSet: MetricSet, results: seq<Response>, accepts: nat -> bool, n: nat)
    requires n <= |metricSet.definitions|
    ensures var events := RateEvents(metricSet, results, accepts, n);
            && |events| == n
            && forall j :: 0 <= j < n ==> (
                 events[j] == EventOf(metricSet.definitions[j].name, RolledUp(metricSet, results, j), accepts(j)))
  {
    if n > 0 {
      RateEventAt(metricSet, results, accepts, n - 1);
    }
  }

  predicate DistinctNames(metricSet: MetricSet) {
    forall i, j :: 0 <= i < j < |metricSet.definitions|
      ==> metricSet.definitions[i].name != metricSet.definitions[j].name
  }

  /** A metric is not found exactly when no response matches it. */
  lemma MetricNotFoundIff(metricSet: MetricSet, results: seq<Response>, accepts: nat -> bool, j: nat)
    requires DistinctNames(metricSet) && j < |metricSet.definitions|
    ensures var events := RateEvents(metricSet, results, accepts, |metricSet.definitions|);
            metricSet.definitions[j].name in MissingNames(events) <==>
            forall r :: r in results ==> !Matches(r, metricSet.prefix + metricSet.definitions[j].attribute)
  {
    var events := RateEvents(metricSet, results, accepts, |metricSet.definitions|);
    RateEventAt(metricSet, results, accepts, |metricSet.definitions|);
    MissingNamesAt(events, metricSet.definitions[j].name);
    hide RateEvents, MissingNames, Matches, RateFor;
    forall k | 0 <= k < |events| && events[k] == Missing(metricSet.definitions[j].name) ensures k == j {
    }
    assert RolledUp(metricSet, results, j).None? <==> events[j] == Missing(metricSet.definitions[j].name);
  }

  /** A metric that some response matches, and whose write is accepted, holds the sum of its numeric matches. */
  lemma MetricIsSumOfItsMatches(
    metricSet: MetricSet, results: seq<Response>, accepts: nat -> bool, metrics: map<string, Value>, j: nat)
    requires DistinctNames(metricSet) && j < |metricSet.definitions| && accepts(j)
    requires AnyMatch(results, metricSet.prefix + metricSet.definitions[j].attribute)
    ensures Holds(Apply(metrics, RateEvents(metricSet, results, accepts, |metricSet.definitions|)),
                  metricSet.definitions[j].name,
                  Some(Number(RateFor(results, metricSet.prefix + metricSet.definitions[j].attribute))))
  {
    var events := RateEvents(metricSet, results, accepts, |metricSet.definitions|);
    RateEventAt(metricSet, results, accepts, |metricSet.definitions|);
    hide RateEvents, Apply, AnyMatch, RateFor;
    LastWriteWins(metrics, events, j);
  }

  lemma ShippedNamesDistinct()
    ensures DistinctNames(REQUEST_SET)
  {
    forall i: nat, j: nat | i < j < 6 ensures REQUEST_SET.definitions[i].name != REQUEST_SET.definitions[j].name {
      ShippedLetters(i);
      ShippedLetters(j);
    }
  }

  /** The lengths tell the shipped names apart, and the fourteenth letter the two of the same length. */
  lemma ShippedLetters(j: nat)
    requires j < 6
    ensures var name := REQUEST_SET.definitions[j].name;
            && |name| == [32, 38, 38, 33, 37, 35][j]
            && (j == 1 ==> name[13] == 'C') && (j == 2 ==> name[13] == 'F')
  {
  }

  // ---------------------------------------------------------------- each response counts at most once

  /** No prefix extends another one (nor repeats it). */
  predicate Unrelated(prefixes: seq<string>) {
    forall i, j :: 0 <= i < |prefixes| && 0 <= j < |prefixes| && i != j ==> !HasPrefix(prefixes[i], prefixes[j])
  }

  function Prefixes(metricSet: MetricSet): seq<string> {
    var n := |metricSet.definitions|;
    seq(n, j requires 0 <= j < n => metricSet.prefix + metricSet.definitions[j].attribute)
  }

  lemma ShippedPrefixesUnrelated()
    ensures Unrelated(Prefixes(REQUEST_SET))
  {
    var base := REQUEST_SET.prefix;
    var attributes := ["request=Produce", "request=FetchConsumer", "request=FetchFollower", "request=Metadata",
                       "request=OffsetCommit", "request=ListGroups"];
    assert forall j :: 0 <= j < 6 ==> REQUEST_SET.definitions[j].attribute == attributes[j];
    forall i, j | 0 <= i < 6 && 0 <= j < 6 && i != j ensures !HasPrefix(base + attributes[i], base + attributes[j]) {
      // All differ after "request=", and the two fetch requests after "request=Fetch".
      DifferAt(attributes[i], attributes[j], if {i, j} == {1, 2} then 13 else 8);
      CommonPrefix(base, attributes[i], attributes[j]);
    }
  }

  lemma DifferAt(a: string, b: string, k: nat)
    requires k < |a| && k < |b| && a[k] != b[k]
    ensures !HasPrefix(a, b)
  {
    if |b| <= |a| {
      assert a[..|b|][k] == a[k];
    }
  }

  lemma CommonPrefix(base: string, a: string, b: string)
    ensures HasPrefix(base + a, base + b) <==> HasPrefix(a, b)
  {
    if |b| <= |a| {
      assert (base + a)[..|base + b|] == base + a[..|b|];
      assert base + a[..|b|] == base + b <==> a[..|b|] == b by {
        if base + a[..|b|] == base + b {
          SplitAt(base, a[..|b|], base, b);
        }
      }
    }
  }

  /** A response that matches two of the prefixes makes one an extension of the other. */
  lemma AtMostOne(r: Response, prefixes: seq<string>, i: nat, j: nat)
    requires Unrelated(prefixes) && i < |prefixes| && j < |prefixes|
    requires Matches(r, prefixes[i]) && Matches(r, prefixes[j])
    ensures i == j
  {
    PrefixesNest(r.name, prefixes[i], prefixes[j]);
  }

  /** A response counts towards at most one of the shipped request metrics. */
  lemma CountsTowardsAtMostOneMetric(r: Response, i: nat, j: nat)
    requires i < |REQUEST_SET.definitions| && j < |REQUEST_SET.definitions|
    requires Matches(r, REQUEST_SET.prefix + REQUEST_SET.definitions[i].attribute)
    requires Matches(r, REQUEST_SET.prefix + REQUEST_SET.definitions[j].attribute)
    ensures i == j
  {
    ShippedPrefixesUnrelated();
    AtMostOne(r, Prefixes(REQUEST_SET), i, j);
  }

  // ---------------------------------------------------------------- the metrics split the total

  ghost function MetricsTotal(results: seq<Response>, prefixes: seq<string>): real {
    if prefixes == [] then 0.0
    else MetricsTotal(results, prefixes[..|prefixes| - 1]) + RateFor(results, prefixes[|prefixes| - 1])
  }

  ghost function MatchesAny(prefixes: seq<string>): Response -> bool {
    r => exists i :: 0 <= i < |prefixes| && Matches(r, prefixes[i])
  }

  ghost function MatchingTotal(results: seq<Response>, prefixes: seq<string>): real {
    SumWhere(results, MatchesAny(prefixes))
  }

  /** A sum over one condition or another, never both, is the sum over each. */
  lemma {:induction false} SumWhereSplits(
    results: seq<Response>, a: Response -> bool, b: Response -> bool, either: Response -> bool)
    requires forall r :: !(a(r) && b(r)) && (either(r) <==> a(r) || b(r))
    ensures SumWhere(results, either) == SumWhere(results, a) + SumWhere(results, b)
  {
    if results != [] {
      SumWhereSplits(results[..|results| - 1], a, b, either);
    }
  }

  lemma {:induction false} SumWhereNone(results: seq<Response>, counts: Response -> bool)
    requires forall r :: !counts(r)
    ensures SumWhere(results, counts) == 0.0
  {
    if results != [] {
      SumWhereNone(results[..|results| - 1], counts);
    }
  }

  /** Unrelated prefixes: all metrics together are the sum over all matching responses, each counted once. */
  lemma {:induction false} MetricsSplitTotal(results: seq<Response>, prefixes: seq<string>)
    requires Unrelated(prefixes)
    ensures MetricsTotal(results, prefixes) == MatchingTotal(results, prefixes)
  {
    if prefixes == [] {
      SumWhereNone(results, MatchesAny(prefixes));
    } else {
      var init, last := prefixes[..|prefixes| - 1], prefixes[|prefixes| - 1];
      MetricsSplitTotal(results, init);
      var a, b, either := MatchesAny(init), (r: Response) => Matches(r, last), MatchesAny(prefixes);
      forall r ensures !(a(r) && b(r)) && (either(r) <==> a(r) || b(r)) {
        OneMorePrefix(r, prefixes);
      }
      SumWhereSplits(results, a, b, either);
    }
  }

  lemma OneMorePrefix(r: Response, prefixes: seq<string>)
    requires prefixes != [] && Unrelated(prefixes)
    ensures var init, last := prefixes[..|prefixes| - 1], prefixes[|prefixes| - 1];
            && !(MatchesAny(init)(r) && Matches(r, last))
            && (MatchesAny(prefixes)(r) <==> MatchesAny(init)(r) || Matches(r, last))
  {
    var init, last := prefixes[..|prefixes| - 1], prefixes[|prefixes| - 1];
    if MatchesAny(init)(r) && Matches(r, last) {
      var i :| 0 <= i < |init| && Matches(r, init[i]);
      AtMostOne(r, prefixes, i, |init|);
    }
  }

  lemma ShippedMetricsSplitTotal(results: seq<Response>)
    ensures MetricsTotal(results, Prefixes(REQUEST_SET)) == MatchingTotal(results, Prefixes(REQUEST_SET))
  {
    ShippedPrefixesUnrelated();
    MetricsSplitTotal(results, Prefixes(REQUEST_SET));
  }

  /** The total is split for every list of responses if and only if no prefix extends another. */
  lemma SplitIffUnrelated(prefixes: seq<string>)
    ensures (forall results :: MetricsTotal(results, prefixes) == MatchingTotal(results, prefixes))
         <==> Unrelated(prefixes)
  {
    if Unrelated(prefixes) {
      forall results ensures MetricsTotal(results, prefixes) == MatchingTotal(results, prefixes) {
        MetricsSplitTotal(results, prefixes);
      }
    } else {
      var i, j :| 0 <= i < |prefixes| && 0 <= j < |prefixes| && i != j && HasPrefix(prefixes[i], prefixes[j]);
      CountedTwice(prefixes, i, j);
      var results := [Response(prefixes[i] + RATE_SUFFIX, false, Number(1.0))];
      assert MetricsTotal(results, prefixes) != MatchingTotal(results, prefixes);
    }
  }

  lemma CountedTwice(prefixes: seq<string>, i: nat, j: nat)
    requires i < |prefixes| && j < |prefixes| && i != j && HasPrefix(prefixes[i], prefixes[j])
    ensures var results := [Response(prefixes[i] + RATE_SUFFIX, false, Number(1.0))];
            MetricsTotal(results, prefixes) >= 2.0 && MatchingTotal(results, prefixes) == 1.0
  {
    var r := Response(prefixes[i] + RATE_SUFFIX, false, Number(1.0));
    MatchesExtended(prefixes[i], prefixes[j]);
    MatchesExtended(prefixes[i], prefixes[i]);
    SingleSum(r, MatchesAny(prefixes));
    TwoPrefixes(r, prefixes, i, j);
  }

  lemma MatchesExtended(long: string, short: string)
    requires HasPrefix(long, short)
    ensures Matches(Response(long + RATE_SUFFIX, false, Number(1.0)), short)
  {
    assert (long + RATE_SUFFIX)[..|short|] == long[..|short|];
    assert (long + RATE_SUFFIX)[|long|..] == RATE_SUFFIX;
  }

  lemma SingleSum(r: Response, counts: Response -> bool)
    ensures SumWhere([r], counts) == if counts(r) && r.value.Number? then r.value.value else 0.0
  {
    assert [r][..0] == [];
  }

  lemma {:induction false} PrefixCount(r: Response, prefixes: seq<string>, some: set<nat>)
    requires r.value == Number(1.0)
    requires forall i :: i in some ==> i < |prefixes| && Matches(r, prefixes[i])
    ensures MetricsTotal([r], prefixes) >= |some| as real
  {
    if prefixes == [] {
      assert some == {};
    } else {
      var n := |prefixes| - 1;
      PrefixCount(r, prefixes[..n], some - {n});
      SingleSum(r, x => Matches(x, prefixes[n]));
    }
  }

  lemma TwoPrefixes(r: Response, prefixes: seq<string>, i: nat, j: nat)
    requires r.value == Number(1.0)
    requires i < |prefixes| && j < |prefixes| && i != j && Matches(r, prefixes[i]) && Matches(r, prefixes[j])
    ensures MetricsTotal([r], prefixes) >= 2.0
  {
    PrefixCount(r, prefixes, {i, j});
  }
}
