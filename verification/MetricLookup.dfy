/** Filling a sample from bean queries: an index by attribute name stands in for a scan of the responses. */
module MetricLookup {
  import opened Wrappers

  datatype Value = Number(value: real) | Other(text: string)

  datatype Response = Response(name: string, isError: bool, value: Value)

  /** A lost connection ends the process; any other failed query is skipped. */
  datatype Reply = Answered(results: seq<Response>) | QueryFailed | ConnectionLost

  datatype MetricDefinition = MetricDefinition(name: string, attribute: string)

  datatype MetricSet = MetricSet(mBean: string, prefix: string, definitions: seq<MetricDefinition>)

  /** The n-th query for a bean name, and whether the sample takes the value of a definition (set, definition). */
  datatype World = World(query: (nat, string) -> Reply, accepts: (nat, nat) -> bool)

  type Modifier = Option<string -> string>

  function Modified(modifier: Modifier, name: string): string {
    if modifier.Some? then modifier.value(name) else name
  }

  function AcceptsOf(world: World, i: nat): nat -> bool {
    (j: nat) => world.accepts(i, j)
  }

  class Sample {
    var metrics: map<string, Value>

    constructor ()
      ensures metrics == map[]
    {
      metrics := map[];
    }

    method SetMetric(name: string, value: Value, accepted: bool)
      modifies this
      ensures metrics == if accepted then old(metrics)[name := value] else old(metrics)
    {
      if accepted {
        metrics := metrics[name := value];
      }
    }
  }

  // ---------------------------------------------------------------- what the collection refines

  /** A plain scan: the value of the last response without error that has exactly this name. */
  function LastMatch(results: seq<Response>, key: string): Option<Value> {
    if results == [] then None
    else
      var last := results[|results| - 1];
      if !last.isError && last.name == key then Some(last.value) else LastMatch(results[..|results| - 1], key)
  }

  /** What becomes of one definition. */
  datatype Event = Missing(name: string) | Refused(name: string) | Written(name: string, value: Value)

  function EventOf(name: string, found: Option<Value>, accepted: bool): Event {
    if found.None? then Missing(name) else if accepted then Written(name, found.value) else Refused(name)
  }

  function Key(modifier: Modifier, metricSet: MetricSet, j: nat): string
    requires j < |metricSet.definitions|
  {
    Modified(modifier, metricSet.prefix + metricSet.definitions[j].attribute)
  }

  function DefinitionEvents(
    metricSet: MetricSet, modifier: Modifier, results: seq<Response>, accepts: nat -> bool, n: nat): seq<Event>
    requires n <= |metricSet.definitions|
  {
    if n == 0 then []
    else
      DefinitionEvents(metricSet, modifier, results, accepts, n - 1)
      + [EventOf(metricSet.definitions[n - 1].name, LastMatch(results, Key(modifier, metricSet, n - 1)),
                 accepts(n - 1))]
  }

  function ReplyFor(sets: seq<MetricSet>, modifier: Modifier, world: World, i: nat): Reply
    requires i < |sets|
  {
    world.query(i, Modified(modifier, sets[i].mBean))
  }

  function SetEvents(sets: seq<MetricSet>, modifier: Modifier, world: World, i: nat): seq<Event>
    requires i < |sets|
  {
    var reply := ReplyFor(sets, modifier, world, i);
    if reply.Answered? then
      DefinitionEvents(sets[i], modifier, reply.results, AcceptsOf(world, i), |sets[i].definitions|)
    else []
  }

  function Events(sets: seq<MetricSet>, modifier: Modifier, world: World, n: nat): seq<Event>
    requires n <= |sets|
  {
    if n == 0 then [] else Events(sets, modifier, world, n - 1) + SetEvents(sets, modifier, world, n - 1)
  }

  function Apply(metrics: map<string, Value>, events: seq<Event>): map<string, Value> {
    if events == [] then metrics
    else
      var last := events[|events| - 1];
      var before := Apply(metrics, events[..|events| - 1]);
      if last.Written? then before[last.name := last.value] else before
  }

  function MissingNames(events: seq<Event>): seq<string> {
    if events == [] then []
    else
      var last := events[|events| - 1];
      MissingNames(events[..|events| - 1]) + if last.Missing? then [last.name] else []
  }

  // ---------------------------------------------------------------- the collection

  /** The index by name: error responses are left out, a later response replaces an earlier one. */
  method IndexByName(results: seq<Response>) returns (attrsByName: map<string, Value>)
    ensures forall key :: key in attrsByName <==> LastMatch(results, key).Some?
    ensures forall key :: key in attrsByName ==> LastMatch(results, key) == Some(attrsByName[key])
  {
    attrsByName := map[];
    for i := 0 to |results|
      invariant forall key :: key in attrsByName <==> LastMatch(results[..i], key).Some?
      invariant forall key :: key in attrsByName ==> LastMatch(results[..i], key) == Some(attrsByName[key])
    {
      assert results[..i + 1][..i] == results[..i];
      if results[i].isError {
        continue;
      }
      attrsByName := attrsByName[results[i].name := results[i].value];
    }
    assert results[..|results|] == results;
  }

  /** `done` sets are collected before the connection is lost; all of them when it is not. */
  method CollectMetricDefinitions(sample: Sample, sets: seq<MetricSet>, modifier: Modifier, world: World)
    returns (notFound: seq<string>, done: nat)
    modifies sample
    ensures done <= |sets| && NoneLost(sets, modifier, world, done)
    ensures done < |sets| ==> ReplyFor(sets, modifier, world, done).ConnectionLost?
    ensures sample.metrics == Apply(old(sample.metrics), Events(sets, modifier, world, done))
    ensures notFound == MissingNames(Events(sets, modifier, world, done))
  {
    notFound, done := [], 0;
    NoSets(sets, modifier, world, sample.metrics);
    assert NoneLost(sets, modifier, world, 0);
    hide *;
    while done < |sets|
      invariant done <= |sets| && NoneLost(sets, modifier, world, done)
      invariant sample.metrics == Apply(old(sample.metrics), Events(sets, modifier, world, done))
      invariant notFound == MissingNames(Events(sets, modifier, world, done))
    {
      var reply := ReplyFor(sets, modifier, world, done);
      if reply.ConnectionLost? {
        return;
      }
      EventsOfReply(sets, modifier, world, done, sample.metrics);
      if reply.Answered? {
        var missing := CollectSet(sample, sets[done], modifier, reply.results, AcceptsOf(world, done));
        notFound := notFound + missing;
      }
      SetStep(sets, modifier, world, done, old(sample.metrics));
      OneMoreReply(sets, modifier, world, done);
      done := done + 1;
    }
  }

  /** The connection is there for the first `n` queries. */
  ghost predicate NoneLost(sets: seq<MetricSet>, modifier: Modifier, world: World, n: nat)
    requires n <= |sets|
  {
    forall i :: 0 <= i < n ==> !ReplyFor(sets, modifier, world, i).ConnectionLost?
  }

  lemma OneMoreReply(sets: seq<MetricSet>, modifier: Modifier, world: World, n: nat)
    requires n < |sets|
    ensures NoneLost(sets, modifier, world, n + 1)
         <==> NoneLost(sets, modifier, world, n) && !ReplyFor(sets, modifier, world, n).ConnectionLost?
  {
  }

  lemma NoSets(sets: seq<MetricSet>, modifier: Modifier, world: World, metrics: map<string, Value>)
    ensures Apply(metrics, Events(sets, modifier, world, 0)) == metrics
    ensures MissingNames(Events(sets, modifier, world, 0)) == []
  {
  }

  /** What a set adds: the events of its definitions if its query was answered, and nothing otherwise. */
  lemma EventsOfReply(sets: seq<MetricSet>, modifier: Modifier, world: World, i: nat, metrics: map<string, Value>)
    requires i < |sets|
    ensures var reply, events := ReplyFor(sets, modifier, world, i), SetEvents(sets, modifier, world, i);
            if reply.Answered? then
              events == DefinitionEvents(sets[i], modifier, reply.results, AcceptsOf(world, i), |sets[i].definitions|)
            else
              Apply(metrics, events) == metrics && MissingNames(events) == []
  {
  }

  lemma SetStep(sets: seq<MetricSet>, modifier: Modifier, world: World, i: nat, metrics: map<string, Value>)
    requires i < |sets|
    ensures var before, events := Events(sets, modifier, world, i), SetEvents(sets, modifier, world, i);
            var after := Events(sets, modifier, world, i + 1);
            && Apply(metrics, after) == Apply(Apply(metrics, before), events)
            && MissingNames(after) == MissingNames(before) + MissingNames(events)
  {
    var before, events := Events(sets, modifier, world, i), SetEvents(sets, modifier, world, i);
    ApplyConcat(metrics, before, events);
    MissingConcat(before, events);
  }

  lemma DefinitionStep(
    metricSet: MetricSet, modifier: Modifier, results: seq<Response>, accepts: nat -> bool, j: nat,
    metrics: map<string, Value>)
    requires j < |metricSet.definitions|
    ensures var before := DefinitionEvents(metricSet, modifier, results, accepts, j);
            var after := DefinitionEvents(metricSet, modifier, results, accepts, j + 1);
            var found := LastMatch(results, Key(modifier, metricSet, j));
            var name := metricSet.definitions[j].name;
            && Apply(metrics, after) == (if found.Some? && accepts(j) then Apply(metrics, before)[name := found.value]
                                         else Apply(metrics, before))
            && MissingNames(after) == MissingNames(before) + if found.None? then [name] else []
  {
    var before := DefinitionEvents(metricSet, modifier, results, accepts, j);
    var after := DefinitionEvents(metricSet, modifier, results, accepts, j + 1);
    assert after[..|after| - 1] == before;
  }

  method CollectSet(
    sample: Sample, metricSet: MetricSet, modifier: Modifier, results: seq<Response>, accepts: nat -> bool)
    returns (notFound: seq<string>)
    modifies sample
    ensures var events := DefinitionEvents(metricSet, modifier, results, accepts, |metricSet.definitions|);
            sample.metrics == Apply(old(sample.metrics), events) && notFound == MissingNames(events)
  {
    var attrsByName := IndexByName(results);
    notFound := [];
    for j := 0 to |metricSet.definitions|
      invariant sample.metrics == Apply(old(sample.metrics), DefinitionEvents(metricSet, modifier, results, accepts, j))
      invariant notFound == MissingNames(DefinitionEvents(metricSet, modifier, results, accepts, j))
    {
      DefinitionStep(metricSet, modifier, results, accepts, j, old(sample.metrics));
      var definition := metricSet.definitions[j];
      var mBeanKey := Modified(modifier, metricSet.prefix + definition.attribute);
      assert mBeanKey == Key(modifier, metricSet, j);
      hide *;
      if mBeanKey !in attrsByName {
        notFound := notFound + [definition.name];
      } else {
        sample.SetMetric(definition.name, attrsByName[mBeanKey], accepts(j));
      }
    }
  }

  lemma {:induction false} ApplyConcat(metrics: map<string, Value>, a: seq<Event>, b: seq<Event>)
    ensures Apply(metrics, a + b) == Apply(Apply(metrics, a), b)
  {
    if b == [] {
      assert a + b == a;
    } else {
      var init := b[..|b| - 1];
      assert (a + b)[..|a + b| - 1] == a + init;
      ApplyConcat(metrics, a, init);
    }
  }

  lemma {:induction false} MissingConcat(a: seq<Event>, b: seq<Event>)
    ensures MissingNames(a + b) == MissingNames(a) + MissingNames(b)
  {
    if b == [] {
      assert a + b == a;
    } else {
      var init := b[..|b| - 1];
      assert (a + b)[..|a + b| - 1] == a + init;
      MissingConcat(a, init);
    }
  }

  // ---------------------------------------------------------------- what a sample ends up with

  predicate IsLastMatch(results: seq<Response>, key: string, k: nat) {
    && k < |results| && !results[k].isError && results[k].name == key
    && forall l :: k < l < |results| && results[l].name == key ==> results[l].isError
  }

  /** The scan finds the value at a position if it is the last good one with that name. */
  lemma {:induction false} LastMatchIsLast(results: seq<Response>, key: string, k: nat)
    requires IsLastMatch(results, key, k)
    ensures LastMatch(results, key) == Some(results[k].value)
  {
    var init := results[..|results| - 1];
    if k < |init| {
      assert IsLastMatch(init, key, k);
      LastMatchIsLast(init, key, k);
    }
  }

  /** The scan finds nothing if and only if every response with that name is an error. */
  lemma {:induction false} LastMatchNoneIff(results: seq<Response>, key: string)
    ensures LastMatch(results, key).None? <==> forall r :: r in results && r.name == key ==> r.isError
  {
    if results != [] {
      var init, last := results[..|results| - 1], results[|results| - 1];
      assert results == init + [last];
      LastMatchNoneIff(init, key);
    }
  }

  /** The last good response to the query of set `i` that has the exact key of definition `j`. */
  ghost function FoundFor(sets: seq<MetricSet>, modifier: Modifier, world: World, i: nat, j: nat): Option<Value>
    requires i < |sets| && j < |sets[i].definitions|
  {
    var reply := ReplyFor(sets, modifier, world, i);
    if reply.Answered? then LastMatch(reply.results, Key(modifier, sets[i], j)) else None
  }

  /** Definition `j` of set `i` puts a value under `name` into the sample. */
  ghost predicate Writes(sets: seq<MetricSet>, modifier: Modifier, world: World, i: nat, j: nat, name: string) {
    && i < |sets| && j < |sets[i].definitions| && sets[i].definitions[j].name == name
    && FoundFor(sets, modifier, world, i, j).Some? && world.accepts(i, j)
  }

  ghost predicate WritesIn(sets: seq<MetricSet>, modifier: Modifier, world: World, i: nat, name: string) {
    exists j: nat :: Writes(sets, modifier, world, i, j, name)
  }

  ghost predicate Holds(metrics: map<string, Value>, name: string, value: Option<Value>) {
    name in metrics && value == Some(metrics[name])
  }

  predicate WritesName(e: Event, name: string) {
    e.Written? && e.name == name
  }

  lemma {:induction false} Untouched(metrics: map<string, Value>, events: seq<Event>, name: string)
    requires forall e :: e in events ==> !WritesName(e, name)
    ensures name in Apply(metrics, events) <==> name in metrics
    ensures name in metrics ==> Apply(metrics, events)[name] == metrics[name]
  {
    if events != [] {
      assert !WritesName(events[|events| - 1], name);
      Untouched(metrics, events[..|events| - 1], name);
    }
  }

  lemma LastWriteWins(metrics: map<string, Value>, events: seq<Event>, k: nat)
    requires k < |events| && events[k].Written?
    requires forall l :: k < l < |events| ==> !WritesName(events[l], events[k].name)
    ensures var name := events[k].name;
            name in Apply(metrics, events) && Apply(metrics, events)[name] == events[k].value
  {
    var upTo, rest := events[..k + 1], events[k + 1..];
    assert upTo + rest == events && upTo[..k] == events[..k];
    ApplyConcat(metrics, upTo, rest);
    Untouched(Apply(metrics, upTo), rest, events[k].name);
  }

  lemma {:induction false} DefinitionEventAt(
    metricSet: MetricSet, modifier: Modifier, results: seq<Response>, accepts: nat -> bool, n: nat)
    requires n <= |metricSet.definitions|
    ensures var events := DefinitionEvents(metricSet, modifier, results, accepts, n);
            && |events| == n
            && forall j :: 0 <= j < n ==> (
                 events[j] == EventOf(metricSet.definitions[j].name, LastMatch(results, Key(modifier, metricSet, j)),
                                      accepts(j)))
  {
    if n > 0 {
      DefinitionEventAt(metricSet, modifier, results, accepts, n - 1);
    }
  }

  lemma SetEventAt(sets: seq<MetricSet>, modifier: Modifier, world: World, i: nat)
    requires i < |sets|
    ensures var reply, events := ReplyFor(sets, modifier, world, i), SetEvents(sets, modifier, world, i);
            && |events| == (if reply.Answered? then |sets[i].definitions| else 0)
            && forall j :: 0 <= j < |events| ==> (
                 events[j] == EventOf(sets[i].definitions[j].name, LastMatch(reply.results, Key(modifier, sets[i], j)),
                                      world.accepts(i, j)))
  {
    var reply := ReplyFor(sets, modifier, world, i);
    if reply.Answered? {
      DefinitionEventAt(sets[i], modifier, reply.results, AcceptsOf(world, i), |sets[i].definitions|);
    }
  }

  /**
   * A name that no definition writes keeps its value: failed queries, missing keys and refused writes change nothing.
   */
  lemma {:induction false} OthersKept(
    sets: seq<MetricSet>, modifier: Modifier, world: World, n: nat, metrics: map<string, Value>, name: string)
    requires n <= |sets|
    requires forall i: nat :: i < n ==> !WritesIn(sets, modifier, world, i, name)
    ensures var after := Apply(metrics, Events(sets, modifier, world, n));
            (name in after <==> name in metrics) && (name in metrics ==> after[name] == metrics[name])
  {
    NoSets(sets, modifier, world, metrics);
    hide *;
    if n > 0 {
      OthersKept(sets, modifier, world, n - 1, metrics, name);
      EventsStep(sets, modifier, world, n, metrics);
      SetKeeps(sets, modifier, world, n - 1, Apply(metrics, Events(sets, modifier, world, n - 1)), name);
    }
  }

  lemma SetKeeps(
    sets: seq<MetricSet>, modifier: Modifier, world: World, i: nat, metrics: map<string, Value>, name: string)
    requires i < |sets|
    requires !WritesIn(sets, modifier, world, i, name)
    ensures var after := Apply(metrics, SetEvents(sets, modifier, world, i));
            (name in after <==> name in metrics) && (name in metrics ==> after[name] == metrics[name])
  {
    SetSilent(sets, modifier, world, i, name);
    Untouched(metrics, SetEvents(sets, modifier, world, i), name);
  }

  lemma SetSilent(sets: seq<MetricSet>, modifier: Modifier, world: World, i: nat, name: string)
    requires i < |sets|
    requires !WritesIn(sets, modifier, world, i, name)
    ensures forall e :: e in SetEvents(sets, modifier, world, i) ==> !WritesName(e, name)
  {
    SetEventAt(sets, modifier, world, i);
    var events := SetEvents(sets, modifier, world, i);
    forall j | 0 <= j < |events| ensures !WritesName(events[j], name) {
      assert !Writes(sets, modifier, world, i, j, name);
    }
  }

  /** No later definition among the first `n` sets writes the name. */
  ghost predicate IsLastWrite(
    sets: seq<MetricSet>, modifier: Modifier, world: World, n: nat, i: nat, j: nat, name: string) {
    && i < n && Writes(sets, modifier, world, i, j, name)
    && (forall j': nat :: j < j' ==> !Writes(sets, modifier, world, i, j', name))
    && (forall i': nat :: i < i' < n ==> !WritesIn(sets, modifier, world, i', name))
  }

  /** The last definition that writes a name decides: its value is the last good response with its exact key. */
  lemma {:induction false} LastDefinitionWins(
    sets: seq<MetricSet>, modifier: Modifier, world: World, n: nat, metrics: map<string, Value>,
                                              i: nat, j: nat, name: string)
    requires n <= |sets| && IsLastWrite(sets, modifier, world, n, i, j, name)
    ensures Holds(Apply(metrics, Events(sets, modifier, world, n)), name, FoundFor(sets, modifier, world, i, j))
  {
    hide Events, Apply, SetEvents, FoundFor, WritesIn;
    EventsStep(sets, modifier, world, n, metrics);
    var before := Apply(metrics, Events(sets, modifier, world, n - 1));
    if i == n - 1 {
      DefinitionWins(sets, modifier, world, before, i, j, name);
    } else {
      LastDefinitionWins(sets, modifier, world, n - 1, metrics, i, j, name);
      SetKeeps(sets, modifier, world, n - 1, before, name);
    }
  }

  /** No two definitions of the sets have the same metric name. */
  ghost predicate UniqueNames(sets: seq<MetricSet>) {
    forall i, j, i', j' ::
      && 0 <= i < |sets| && 0 <= j < |sets[i].definitions| && 0 <= i' < |sets| && 0 <= j' < |sets[i'].definitions|
      && sets[i].definitions[j].name == sets[i'].definitions[j'].name
      ==> i == i' && j == j'
  }

  /**
   * With a modifier `f`: the query is for `f(mBean)`, and the metric gets the value of the last good response named
   * `f(prefix + attribute)`.
   */
  lemma ModifiedMetric(
    sets: seq<MetricSet>, f: string -> string, world: World, n: nat, metrics: map<string, Value>,
    i: nat, j: nat, results: seq<Response>, k: nat)
    requires n <= |sets| && i < n && j < |sets[i].definitions| && UniqueNames(sets) && world.accepts(i, j)
    requires world.query(i, f(sets[i].mBean)) == Answered(results)
    requires IsLastMatch(results, f(sets[i].prefix + sets[i].definitions[j].attribute), k)
    ensures Holds(Apply(metrics, Events(sets, Some(f), world, n)), sets[i].definitions[j].name, Some(results[k].value))
  {
    LastMatchIsLast(results, Key(Some(f), sets[i], j), k);
    OnlyWrite(sets, Some(f), world, n, i, j);
    LastDefinitionWins(sets, Some(f), world, n, metrics, i, j, sets[i].definitions[j].name);
  }

  /** Without a modifier: the query is for the bean name itself and the key is prefix and attribute. */
  lemma PlainMetric(
    sets: seq<MetricSet>, world: World, n: nat, metrics: map<string, Value>,
    i: nat, j: nat, results: seq<Response>, k: nat)
    requires n <= |sets| && i < n && j < |sets[i].definitions| && UniqueNames(sets) && world.accepts(i, j)
    requires world.query(i, sets[i].mBean) == Answered(results)
    requires IsLastMatch(results, sets[i].prefix + sets[i].definitions[j].attribute, k)
    ensures Holds(Apply(metrics, Events(sets, None, world, n)), sets[i].definitions[j].name, Some(results[k].value))
  {
    LastMatchIsLast(results, Key(None, sets[i], j), k);
    OnlyWrite(sets, None, world, n, i, j);
    LastDefinitionWins(sets, None, world, n, metrics, i, j, sets[i].definitions[j].name);
  }

  lemma OnlyWrite(sets: seq<MetricSet>, modifier: Modifier, world: World, n: nat, i: nat, j: nat)
    requires n <= |sets| && i < n && j < |sets[i].definitions| && UniqueNames(sets)
    requires FoundFor(sets, modifier, world, i, j).Some? && world.accepts(i, j)
    ensures IsLastWrite(sets, modifier, world, n, i, j, sets[i].definitions[j].name)
  {
    hide FoundFor;
    assert Writes(sets, modifier, world, i, j, sets[i].definitions[j].name);
  }

  /** The same in the negative: which names the queries and keys of not-found metrics are. */
  lemma UnmatchedMetric(
    sets: seq<MetricSet>, f: string -> string, world: World, i: nat, j: nat, results: seq<Response>, name: string)
    requires i < |sets| && j < |sets[i].definitions| && sets[i].definitions[j].name == name
    ensures world.query(i, f(sets[i].mBean)) == Answered(results) ==>
              var key := f(sets[i].prefix + sets[i].definitions[j].attribute);
              Unmatched(sets, Some(f), world, i, j, name) <==> forall r :: r in results && r.name == key ==> r.isError
    ensures world.query(i, sets[i].mBean) == Answered(results) ==>
              var key := sets[i].prefix + sets[i].definitions[j].attribute;
              Unmatched(sets, None, world, i, j, name) <==> forall r :: r in results && r.name == key ==> r.isError
  {
  }

  /** Together with `OthersKept` and `LastDefinitionWins`, every name of the sample is accounted for. */
  lemma {:induction false} LastWriteExists(sets: seq<MetricSet>, modifier: Modifier, world: World, n: nat, name: string)
    returns (i: nat, j: nat)
    requires n <= |sets|
    requires exists i: nat :: i < n && WritesIn(sets, modifier, world, i, name)
    ensures IsLastWrite(sets, modifier, world, n, i, j, name)
  {
    i := n - 1;
    if WritesIn(sets, modifier, world, i, name) {
      var some: nat :| Writes(sets, modifier, world, i, some, name);
      j := LastIn(sets, modifier, world, i, some, name);
    } else {
      i, j := LastWriteExists(sets, modifier, world, n - 1, name);
    }
  }

  lemma {:induction false} LastIn(
    sets: seq<MetricSet>, modifier: Modifier, world: World, i: nat, some: nat, name: string) returns (j: nat)
    requires Writes(sets, modifier, world, i, some, name)
    ensures Writes(sets, modifier, world, i, j, name)
    ensures forall j': nat :: j < j' ==> !Writes(sets, modifier, world, i, j', name)
    decreases |sets[i].definitions| - some
  {
    if later: nat :| some < later && Writes(sets, modifier, world, i, later, name) {
      j := LastIn(sets, modifier, world, i, later, name);
    } else {
      j := some;
    }
  }

  lemma EventsStep(sets: seq<MetricSet>, modifier: Modifier, world: World, n: nat, metrics: map<string, Value>)
    requires 0 < n <= |sets|
    ensures Apply(metrics, Events(sets, modifier, world, n))
         == Apply(Apply(metrics, Events(sets, modifier, world, n - 1)), SetEvents(sets, modifier, world, n - 1))
  {
    ApplyConcat(metrics, Events(sets, modifier, world, n - 1), SetEvents(sets, modifier, world, n - 1));
  }

  lemma DefinitionWins(
    sets: seq<MetricSet>, modifier: Modifier, world: World, metrics: map<string, Value>, i: nat, j: nat, name: string)
    requires Writes(sets, modifier, world, i, j, name)
    requires forall j': nat :: j < j' ==> !Writes(sets, modifier, world, i, j', name)
    ensures Holds(Apply(metrics, SetEvents(sets, modifier, world, i)), name, FoundFor(sets, modifier, world, i, j))
  {
    var events := SetEvents(sets, modifier, world, i);
    SetEventAt(sets, modifier, world, i);
    forall j' | j < j' < |events| ensures !WritesName(events[j'], name) {
      assert !Writes(sets, modifier, world, i, j', name);
    }
    LastWriteWins(metrics, events, j);
  }

  /** Definition `j` of set `i` has no good response with its key, although its query was answered. */
  ghost predicate Unmatched(sets: seq<MetricSet>, modifier: Modifier, world: World, i: nat, j: nat, name: string) {
    && i < |sets| && j < |sets[i].definitions| && sets[i].definitions[j].name == name
    && ReplyFor(sets, modifier, world, i).Answered?
    && forall r :: r in ReplyFor(sets, modifier, world, i).results && r.name == Key(modifier, sets[i], j) ==> r.isError
  }

  ghost predicate UnmatchedIn(sets: seq<MetricSet>, modifier: Modifier, world: World, i: nat, name: string) {
    exists j: nat :: Unmatched(sets, modifier, world, i, j, name)
  }

  lemma {:induction false} MissingNamesAt(events: seq<Event>, name: string)
    ensures name in MissingNames(events) <==> exists k :: 0 <= k < |events| && events[k] == Missing(name)
  {
    if events != [] {
      MissingNamesAt(events[..|events| - 1], name);
    }
  }

  ghost predicate UnmatchedAmong(sets: seq<MetricSet>, modifier: Modifier, world: World, n: nat, name: string) {
    exists i: nat :: i < n && UnmatchedIn(sets, modifier, world, i, name)
  }

  lemma UnmatchedStep(sets: seq<MetricSet>, modifier: Modifier, world: World, i: nat, name: string)
    ensures UnmatchedAmong(sets, modifier, world, i + 1, name)
       <==> UnmatchedAmong(sets, modifier, world, i, name) || UnmatchedIn(sets, modifier, world, i, name)
  {
  }

  /** The names reported as not found are exactly those of the unmatched definitions of answered queries. */
  lemma {:induction false} NotFoundIff(sets: seq<MetricSet>, modifier: Modifier, world: World, n: nat, name: string)
    requires n <= |sets|
    ensures name in MissingNames(Events(sets, modifier, world, n)) <==> UnmatchedAmong(sets, modifier, world, n, name)
  {
    hide *;
    if n == 0 {
      NoSets(sets, modifier, world, map[]);
      NoneUnmatched(sets, modifier, world, name);
    } else {
      var before, last := Events(sets, modifier, world, n - 1), SetEvents(sets, modifier, world, n - 1);
      EventsConcat(sets, modifier, world, n);
      NotFoundIff(sets, modifier, world, n - 1, name);
      MissingInSet(sets, modifier, world, n - 1, name);
      UnmatchedStep(sets, modifier, world, n - 1, name);
      MissingConcat(before, last);
    }
  }

  lemma EventsConcat(sets: seq<MetricSet>, modifier: Modifier, world: World, n: nat)
    requires 0 < n <= |sets|
    ensures Events(sets, modifier, world, n)
         == Events(sets, modifier, world, n - 1) + SetEvents(sets, modifier, world, n - 1)
  {
  }

  lemma NoneUnmatched(sets: seq<MetricSet>, modifier: Modifier, world: World, name: string)
    ensures !UnmatchedAmong(sets, modifier, world, 0, name)
  {
  }

  lemma MissingInSet(sets: seq<MetricSet>, modifier: Modifier, world: World, i: nat, name: string)
    requires i < |sets|
    ensures name in MissingNames(SetEvents(sets, modifier, world, i)) <==>
            UnmatchedIn(sets, modifier, world, i, name)
  {
    var events := SetEvents(sets, modifier, world, i);
    SetEventAt(sets, modifier, world, i);
    MissingNamesAt(events, name);
    forall j | 0 <= j < |events|
      ensures events[j] == Missing(name) <==> Unmatched(sets, modifier, world, i, j, name)
    {
      LastMatchNoneIff(ReplyFor(sets, modifier, world, i).results, Key(modifier, sets[i], j));
    }
  }
}
