/**
 * Which partition can be the first one that a topic's collection delivers: how far the pool, its output channels and
 * its forwarders can hold earlier results back.
 */
module CollectionOrder {
  import opened Wrappers
  import opened PartitionNetwork
  import opened Sums

  // ---------------------------------------------------------------- the order within one unit

  function Carried(u: Unit): seq<nat> {
    if u.forwarder.Pushing? then [u.forwarder.carried.id] else []
  }

  function Numbers(ps: seq<Partition>): seq<nat> {
    seq(|ps|, k requires 0 <= k < |ps| => ps[k].id)
  }

  function AtWork(w: WorkerPhase): seq<nat> {
    if w.Asking? then [w.id] else if w.Sending? then [w.found.id] else []
  }

  /** The numbers that a worker, its channel and its forwarder hold, the one that leaves first in front. */
  function Line(u: Unit): seq<nat> {
    Carried(u) + Numbers(u.out) + AtWork(u.worker)
  }

  predicate Increasing(ids: seq<nat>) {
    forall a, b :: 0 <= a < b < |ids| ==> ids[a] < ids[b]
  }

  predicate Below(ids: seq<nat>, bound: int) {
    forall a :: 0 <= a < |ids| ==> ids[a] < bound
  }

  predicate InOrder(u: Unit, bound: int) {
    Increasing(Line(u)) && Below(Line(u), bound)
  }

  function Unreceived(s: State): seq<nat> {
    s.inChan + s.unfed
  }

  /** The number that the next worker to receive one gets. */
  function Next(cfg: Config, s: State): int {
    |cfg.lookups| - |Unreceived(s)|
  }

  predicate Consecutive(ids: seq<nat>, first: int) {
    forall k :: 0 <= k < |ids| ==> ids[k] == first + k
  }

  function Arrived(s: State): seq<Partition> {
    s.collected + s.collect
  }

  /** How many of the first `k` numbers have all four lookups answered. */
  function Answers(cfg: Config, k: nat): nat
    requires k <= |cfg.lookups|
  {
    |Expected(cfg.lookups[..k])|
  }

  /** How many results the other units can hold back: each one with its worker, its channel and its forwarder. */
  function Hold(cfg: Config): nat
    requires cfg.workers >= 1
  {
    (cfg.outCapacity + 2) * (cfg.workers - 1)
  }

  ghost predicate Ordered(cfg: Config, s: State) {
    && Consecutive(Unreceived(s), Next(cfg, s))
    && forall i :: 0 <= i < |s.units| ==> InOrder(s.units[i], Next(cfg, s))
  }

  /** The first arrival has not overtaken more results than the other units can hold. */
  ghost predicate FirstWithin(cfg: Config, s: State) {
    cfg.workers >= 1 && Arrived(s) != [] ==>
      Arrived(s)[0].id <= |cfg.lookups| && Answers(cfg, Arrived(s)[0].id) <= Hold(cfg)
  }

  // ---------------------------------------------------------------- steps keep the order

  lemma ForwarderLine(u: Unit)
    ensures Line(u) == (if u.forwarder.Pushing? then [u.forwarder.carried.id] else []) + Line(MovedForwarder(u))
  {
    if u.forwarder == Pulling && u.out != [] {
      assert Numbers(u.out) == [u.out[0].id] + Numbers(u.out[1..]);
    }
  }

  lemma WorkerLine(cfg: Config, s: State, u: Unit)
    requires WorkerEnabled(cfg, s, u)
    ensures var line, after := Line(u), Line(MovedWorker(cfg, s, u));
            if Takes(s, u) then after == line + [s.inChan[0]]
            else after == line || (line != [] && after == line[..|line| - 1])
  {
    var v := MovedWorker(cfg, s, u);
    assert Carried(v) == Carried(u);
    if u.worker.Sending? {
      assert Numbers(u.out + [u.worker.found]) == Numbers(u.out) + [u.worker.found.id];
    } else if u.worker.Asking? && v.worker == Receiving {
      assert Line(u) == Line(v) + [u.worker.id];
    }
  }

  lemma WorkerUnitOrdered(cfg: Config, s: State, u: Unit)
    requires WorkerEnabled(cfg, s, u) && InOrder(u, Next(cfg, s))
    requires Takes(s, u) ==> s.inChan[0] == Next(cfg, s)
    ensures InOrder(MovedWorker(cfg, s, u), Next(cfg, s) + if Takes(s, u) then 1 else 0)
  {
    WorkerLine(cfg, s, u);
    hide Line, MovedWorker, Next;
  }

  lemma WorkerOrdered(cfg: Config, s: State, i: nat)
    requires Ordered(cfg, s) && Enabled(cfg, s, WorkerStep(i))
    ensures Ordered(cfg, ApplyWorker(cfg, s, i))
  {
    var u, t := s.units[i], ApplyWorker(cfg, s, i);
    if Takes(s, u) {
      assert Unreceived(t) == Unreceived(s)[1..];
      assert s.inChan[0] == Unreceived(s)[0] == Next(cfg, s);
    }
    WorkerUnitOrdered(cfg, s, u);
    hide MovedWorker, InOrder;
    forall k | 0 <= k < |t.units| ensures InOrder(t.units[k], Next(cfg, t)) {
      StaysInOrder(s.units[k], Next(cfg, s), Next(cfg, t));
    }
  }

  lemma StaysInOrder(u: Unit, bound: int, more: int)
    requires bound <= more
    ensures InOrder(u, bound) ==> InOrder(u, more)
  {
    hide Line;
  }

  lemma RestInOrder(front: seq<nat>, rest: seq<nat>, bound: int)
    requires Increasing(front + rest) && Below(front + rest, bound)
    ensures Increasing(rest) && Below(rest, bound)
  {
    forall a | 0 <= a < |rest| ensures rest[a] == (front + rest)[|front| + a] {
    }
  }

  lemma ForwarderOrdered(cfg: Config, s: State, i: nat)
    requires Ordered(cfg, s) && Enabled(cfg, s, ForwarderStep(i))
    ensures Ordered(cfg, ApplyForwarder(s, i))
  {
    var u, t := s.units[i], ApplyForwarder(s, i);
    ForwarderLine(u);
    assert InOrder(u, Next(cfg, s));
    RestInOrder(if u.forwarder.Pushing? then [u.forwarder.carried.id] else [], Line(MovedForwarder(u)), Next(cfg, s));
    assert InOrder(MovedForwarder(u), Next(cfg, s));
    assert Unreceived(t) == Unreceived(s);
    hide MovedForwarder, InOrder;
    forall k | 0 <= k < |t.units| ensures InOrder(t.units[k], Next(cfg, t)) {
      assert InOrder(s.units[k], Next(cfg, s));
    }
  }

  lemma MainOrdered(cfg: Config, s: State)
    requires Ordered(cfg, s) && Enabled(cfg, s, MainStep)
    requires s.main.StartingWorkers? && s.main.next < |s.units| ==> s.units[s.main.next].worker == NotStarted
    requires s.main.StartingForwarders? && s.main.next < |s.units| ==> s.units[s.main.next].forwarder == Unborn
    ensures Ordered(cfg, ApplyMain(s))
  {
    var t := ApplyMain(s);
    assert Unreceived(t) == Unreceived(s);
    forall k | 0 <= k < |t.units| ensures InOrder(t.units[k], Next(cfg, t)) {
      assert InOrder(s.units[k], Next(cfg, s));
      assert Line(t.units[k]) == Line(s.units[k]);
    }
  }

  lemma FeederOrdered(cfg: Config, s: State)
    requires Ordered(cfg, s) && Enabled(cfg, s, FeederStep)
    ensures Ordered(cfg, ApplyFeeder(s))
  {
    assert Unreceived(ApplyFeeder(s)) == Unreceived(s);
  }

  // ---------------------------------------------------------------- no arrival overtakes more than the others can hold

  lemma LineIds(u: Unit)
    ensures UnitIds(u) == multiset(Line(u))
  {
    NumbersIds(u.out);
  }

  lemma {:induction false} NumbersIds(ps: seq<Partition>)
    ensures Gather(ps, IdOf) == multiset(Numbers(ps))
  {
    if ps != [] {
      NumbersIds(ps[1..]);
      assert Numbers(ps) == [ps[0].id] + Numbers(ps[1..]);
    }
  }

  lemma {:induction false} GatherBounded<T, M>(xs: seq<T>, items: T -> multiset<M>, bound: nat)
    requires forall x :: x in xs ==> |items(x)| <= bound
    ensures |Gather(xs, items)| <= bound * |xs|
  {
    if xs != [] {
      GatherBounded(xs[1..], items, bound);
      OneMore(bound, |xs|);
      assert |Gather(xs, items)| == |items(xs[0])| + |Gather(xs[1..], items)|;
      hide Gather;
    }
  }

  lemma OneMore(bound: nat, n: nat)
    requires n > 0
    ensures bound * n == bound * (n - 1) + bound
  {
  }

  lemma {:induction false} ExpectedIds(lookups: seq<Lookups>, id: nat)
    ensures Gather(Expected(lookups), IdOf)[id] == if id < |lookups| && AllAnswered(lookups[id]) then 1 else 0
  {
    if lookups != [] {
      var n := |lookups| - 1;
      ExpectedIds(lookups[..n], id);
      assert id < n ==> lookups[..n][id] == lookups[id];
      if AllAnswered(lookups[n]) {
        GatherAppend(Expected(lookups[..n]), Built(lookups[n], n), IdOf);
      } else {
        assert Expected(lookups) == Expected(lookups[..n]);
      }
    }
  }

  lemma {:induction false} GatherSize(ps: seq<Partition>)
    ensures |Gather(ps, IdOf)| == |ps|
  {
    if ps != [] {
      GatherSize(ps[1..]);
    }
  }

  lemma Smaller<T>(a: multiset<T>, b: multiset<T>)
    requires a <= b
    ensures |a| <= |b|
  {
    assert b == a + (b - a);
  }

  function Others(s: State, i: nat): seq<Unit>
    requires i < |s.units|
  {
    s.units[..i] + s.units[i + 1..]
  }

  /** At the first arrival, every earlier answered number is with another unit. */
  lemma EarlierElsewhere(cfg: Config, s: State, i: nat, id: nat)
    requires Inv(cfg, s) && Ordered(cfg, s) && i < |s.units| && s.units[i].forwarder.Pushing? && Arrived(s) == []
    requires id < s.units[i].forwarder.carried.id && id < |cfg.lookups| && AllAnswered(cfg.lookups[id])
    ensures Gather(Others(s, i), UnitIds)[id] >= 1
  {
    var u := s.units[i];
    assert InOrder(u, Next(cfg, s));
    assert Line(u)[0] == u.forwarder.carried.id;
    LineIds(u);
    assert id !in Line(u);
    assert id !in Unreceived(s);
    assert id !in s.dropped;
    IndicesCount(|cfg.lookups|, id);
    assert s.collect == [] && s.collected == [];
    assert Ids(s)[id] == Gather(s.units, UnitIds)[id];
    GatherSplit(s.units, i, UnitIds);
    GatherConcat(s.units[..i], s.units[i + 1..], UnitIds);
  }

  lemma UnitLoad(cfg: Config, u: Unit)
    requires |u.out| <= cfg.outCapacity
    ensures |UnitIds(u)| <= cfg.outCapacity + 2
  {
    LineIds(u);
  }

  lemma UnitsLoad(cfg: Config, s: State, i: nat)
    requires Inv(cfg, s) && i < |s.units|
    ensures |s.units| == cfg.workers && |UnitIds(s.units[i])| <= cfg.outCapacity + 2
  {
    hide Ids, Sound;
    assert UnitControl(cfg, s.units[i], Drained(s), i < StartedWorkers(s), i < StartedForwarders(s));
    UnitLoad(cfg, s.units[i]);
  }

  lemma OthersLoad(cfg: Config, s: State, i: nat)
    requires Inv(cfg, s) && i < |s.units|
    ensures cfg.workers >= 1 && |Gather(Others(s, i), UnitIds)| <= Hold(cfg)
  {
    UnitsLoad(cfg, s, i);
    hide *;
    var load := cfg.outCapacity + 2;
    forall u | u in s.units ensures |UnitIds(u)| <= load {
      var m :| 0 <= m < |s.units| && s.units[m] == u;
      UnitsLoad(cfg, s, m);
    }
    OthersAre(s, i);
    GatherBounded(Others(s, i), UnitIds, load);
    HoldsOthers(cfg, |Others(s, i)|);
  }

  lemma HoldsOthers(cfg: Config, others: nat)
    requires cfg.workers >= 1 && others == cfg.workers - 1
    ensures (cfg.outCapacity + 2) * others == Hold(cfg)
  {
  }

  lemma OthersAre(s: State, i: nat)
    requires i < |s.units|
    ensures |Others(s, i)| == |s.units| - 1 && forall u :: u in Others(s, i) ==> u in s.units
  {
  }

  lemma CarriedInPlan(cfg: Config, s: State, i: nat)
    requires Inv(cfg, s) && i < |s.units| && s.units[i].forwarder.Pushing?
    ensures s.units[i].forwarder.carried.id < |cfg.lookups|
  {
    hide Ids;
    assert GoodUnit(cfg, s.units[i]);
  }

  lemma FirstArrival(cfg: Config, s: State, i: nat)
    requires Inv(cfg, s) && Ordered(cfg, s)
    requires i < |s.units| && s.units[i].forwarder.Pushing? && Arrived(s) == []
    ensures cfg.workers >= 1
    ensures s.units[i].forwarder.carried.id < |cfg.lookups|
    ensures Answers(cfg, s.units[i].forwarder.carried.id) <= Hold(cfg)
  {
    hide Inv, Ordered;
    var k := s.units[i].forwarder.carried.id;
    CarriedInPlan(cfg, s, i);
    OthersLoad(cfg, s, i);
    var earlier, held := Gather(Expected(cfg.lookups[..k]), IdOf), Gather(Others(s, i), UnitIds);
    forall id: nat ensures earlier[id] <= held[id] {
      ExpectedIds(cfg.lookups[..k], id);
      if id < k && AllAnswered(cfg.lookups[id]) {
        EarlierElsewhere(cfg, s, i, id);
      }
    }
    Smaller(earlier, held);
    GatherSize(Expected(cfg.lookups[..k]));
  }

  /** An arrival is appended; nothing else changes the list of arrivals. */
  lemma ArrivedAfter(cfg: Config, s: State, step: Step)
    requires Enabled(cfg, s, step)
    ensures Arrived(Apply(cfg, s, step))
         == Arrived(s) + if step.ForwarderStep? && s.units[step.i].forwarder.Pushing?
           then [s.units[step.i].forwarder.carried] else []
  {
  }

  lemma FirstKept(cfg: Config, s: State, t: State)
    requires FirstWithin(cfg, s) && |Arrived(s)| > 0 && |Arrived(t)| > 0 && Arrived(t)[0] == Arrived(s)[0]
    ensures FirstWithin(cfg, t)
  {
    hide Answers, Hold, Arrived;
  }

  lemma FirstMade(cfg: Config, t: State, p: Partition)
    requires cfg.workers >= 1 && p.id <= |cfg.lookups| && Answers(cfg, p.id) <= Hold(cfg) && Arrived(t) == [p]
    ensures FirstWithin(cfg, t)
  {
    hide Answers, Hold, Arrived;
  }

  lemma StepKeepsFirst(cfg: Config, s: State, step: Step)
    requires Inv(cfg, s) && Enabled(cfg, s, step) && Ordered(cfg, s) && FirstWithin(cfg, s)
    ensures FirstWithin(cfg, Apply(cfg, s, step))
  {
    ArrivedAfter(cfg, s, step);
    hide Inv, Ordered, Apply, Arrived, FirstWithin, Enabled;
    var t := Apply(cfg, s, step);
    if Arrived(s) != [] {
      FirstKept(cfg, s, t);
    } else if Arrived(t) != [] {
      FirstArrival(cfg, s, step.i);
      FirstMade(cfg, t, s.units[step.i].forwarder.carried);
    } else {
      NoneArrived(cfg, t);
    }
  }

  lemma NoneArrived(cfg: Config, t: State)
    requires Arrived(t) == []
    ensures FirstWithin(cfg, t)
  {
  }

  lemma StepKeepsOrder(cfg: Config, s: State, step: Step)
    requires Inv(cfg, s) && Enabled(cfg, s, step) && Ordered(cfg, s)
    ensures Ordered(cfg, Apply(cfg, s, step))
  {
    hide Inv;
    match step
    case MainStep =>
      NextIsFresh(cfg, s);
      MainOrdered(cfg, s);
    case FeederStep => FeederOrdered(cfg, s);
    case WorkerStep(i) => WorkerOrdered(cfg, s, i);
    case ForwarderStep(i) => ForwarderOrdered(cfg, s, i);
    case CloserStep =>
  }

  lemma NextIsFresh(cfg: Config, s: State)
    requires Inv(cfg, s)
    ensures s.main.StartingWorkers? && s.main.next < |s.units| ==> s.units[s.main.next].worker == NotStarted
    ensures s.main.StartingForwarders? && s.main.next < |s.units| ==> s.units[s.main.next].forwarder == Unborn
  {
    hide Ids, Sound;
  }

  lemma InitialOrdered(cfg: Config)
    ensures Ordered(cfg, Initial(cfg)) && FirstWithin(cfg, Initial(cfg))
  {
    assert Unreceived(Initial(cfg)) == Indices(|cfg.lookups|);
  }

  lemma {:induction false} RunKeepsOrder(cfg: Config, s: State, steps: seq<Step>, t: State)
    requires Inv(cfg, s) && Ordered(cfg, s) && FirstWithin(cfg, s) && Leads(cfg, s, steps, t)
    ensures FirstWithin(cfg, t)
    decreases |steps|
  {
    hide Inv, Enabled, Apply, Ordered, FirstWithin;
    if steps != [] {
      StepKeepsInv(cfg, s, steps[0]);
      StepKeepsOrder(cfg, s, steps[0]);
      StepKeepsFirst(cfg, s, steps[0]);
      RunKeepsOrder(cfg, Apply(cfg, s, steps[0]), steps[1..], t);
    }
  }

  // ---------------------------------------------------------------- a schedule that holds results back

  lemma {:induction false} Onwards(cfg: Config, s: State, a: seq<Step>, t: State, b: seq<Step>, u: State)
    requires Leads(cfg, s, a, t) && Leads(cfg, t, b, u)
    ensures Leads(cfg, s, a + b, u)
    decreases |a|
  {
    hide Enabled, Apply;
    if a == [] {
      assert a + b == b;
    } else {
      assert (a + b)[1..] == a[1..] + b;
      Onwards(cfg, Apply(cfg, s, a[0]), a[1..], t, b, u);
    }
  }

  lemma OneStep(cfg: Config, s: State, step: Step)
    requires Enabled(cfg, s, step)
    ensures Leads(cfg, s, [step], Apply(cfg, s, step))
  {
    hide Enabled, Apply;
    assert [step][1..] == [];
    assert Leads(cfg, Apply(cfg, s, step), [], Apply(cfg, s, step));
  }

  /** Some schedule leads from the one state to the other. */
  ghost predicate Reaches(cfg: Config, s: State, t: State) {
    exists steps :: Leads(cfg, s, steps, t)
  }

  lemma Stay(cfg: Config, s: State)
    ensures Reaches(cfg, s, s)
  {
    assert Leads(cfg, s, [], s);
  }

  lemma Then(cfg: Config, s: State, t: State, step: Step)
    requires Reaches(cfg, s, t) && Enabled(cfg, t, step)
    ensures Reaches(cfg, s, Apply(cfg, t, step))
  {
    hide Enabled, Apply, Leads;
    var steps :| Leads(cfg, s, steps, t);
    OneStep(cfg, t, step);
    Onwards(cfg, s, steps, t, [step], Apply(cfg, t, step));
  }

  lemma Chain(cfg: Config, s: State, t: State, u: State)
    requires Reaches(cfg, s, t) && Reaches(cfg, t, u)
    ensures Reaches(cfg, s, u)
  {
    hide Leads;
    var a :| Leads(cfg, s, a, t);
    var b :| Leads(cfg, t, b, u);
    Onwards(cfg, s, a, t, b, u);
  }

  /** The state with one unit replaced. */
  function WithUnit(s: State, i: nat, u: Unit): State
    requires i < |s.units|
  {
    s.(units := s.units[i := u])
  }

  // ---------------------------------------------------------------- the schedule, worker by worker

  function QuestionsLeft(q: Question): nat {
    match q
    case Leader => 4
    case InSync(_) => 3
    case Offline(_, _) => 2
    case Replicas(_, _, _) => 1
  }

  /** What a worker is left with after all lookups of a number. */
  function AfterLookups(cfg: Config, id: nat): WorkerPhase
    requires id < |cfg.lookups|
  {
    if AllAnswered(cfg.lookups[id]) then Sending(Built(cfg.lookups[id], id)) else Receiving
  }

  lemma {:induction false} AskOn(cfg: Config, s: State, i: nat) returns (t: State)
    requires i < |s.units| && s.units[i].worker.Asking? && s.units[i].worker.id < |cfg.lookups|
    requires AnswersMatch(cfg.lookups[s.units[i].worker.id], s.units[i].worker.question)
    ensures Reaches(cfg, s, t)
    ensures t == WithUnit(s, i, s.units[i].(worker := AfterLookups(cfg, s.units[i].worker.id))).(dropped := t.dropped)
    decreases QuestionsLeft(s.units[i].worker.question)
  {
    var u := s.units[i];
    var next := ApplyWorker(cfg, s, i);
    var phase := Answered(cfg.lookups[u.worker.id], u.worker.id, u.worker.question);
    assert next == WithUnit(s, i, u.(worker := phase)).(dropped := next.dropped);
    Stay(cfg, s);
    Then(cfg, s, s, WorkerStep(i));
    if phase.Asking? {
      t := AskOn(cfg, next, i);
      Chain(cfg, s, next, t);
    } else {
      t := next;
    }
  }

  // ---------------------------------------------------------------- results held back

  /** The unit has room for all it holds and is waiting, or is full with its worker on a number. */
  predicate Parked(cfg: Config, u: Unit) {
    && !u.outClosed && |u.out| <= cfg.outCapacity
    && (u.worker == Receiving || (u.worker.Asking? && u.forwarder.Pushing? && |u.out| == cfg.outCapacity))
    && (u.forwarder == Pulling || u.forwarder.Pushing?)
    && (u.forwarder == Pulling ==> u.out == [])
  }

  function Room(cfg: Config): Unit -> int {
    (u: Unit) => if u.forwarder == Pulling then cfg.outCapacity + 2
         else cfg.outCapacity - |u.out| + if u.worker == Receiving then 1 else 0
  }

  const WAITING := Unit(Receiving, [], false, Pulling)

  /** All goroutines are up, nothing has arrived, `k` is the next number, and the last unit is idle. */
  ghost predicate Holding(cfg: Config, s: State, k: nat) {
    && cfg.workers >= 1 && k <= |cfg.lookups|
    && s.main == Collecting && s.feeder == Feeding && !s.inClosed && s.inChan == []
    && |s.unfed| == |cfg.lookups| - k && Consecutive(s.unfed, k)
    && s.collect == [] && s.collected == [] && !s.collectClosed
    && |s.units| == cfg.workers && s.units[cfg.workers - 1] == WAITING
    && (forall i :: 0 <= i < |s.units| ==> Parked(cfg, s.units[i]))
    && Sum(s.units[..cfg.workers - 1], Room(cfg)) == Hold(cfg) - Answers(cfg, k)
  }

  /** A unit takes the next number. */
  lemma Take(cfg: Config, s: State, k: nat, i: nat) returns (t: State)
    requires PositiveCapacities(cfg) && Holding(cfg, s, k) && k < |cfg.lookups|
    requires i < |s.units| && s.units[i].worker == Receiving
    ensures Reaches(cfg, s, t)
    ensures t == WithUnit(s, i, s.units[i].(worker := Asking(k, Leader))).(unfed := s.unfed[1..])
  {
    Stay(cfg, s);
    Then(cfg, s, s, FeederStep);
    var fed := Apply(cfg, s, FeederStep);
    assert fed.inChan == [k];
    Then(cfg, s, fed, WorkerStep(i));
    t := Apply(cfg, fed, WorkerStep(i));
    assert fed.inChan[1..] == [];
  }

  lemma AnswersStep(cfg: Config, k: nat)
    requires k < |cfg.lookups|
    ensures Answers(cfg, k + 1) == Answers(cfg, k) + if AllAnswered(cfg.lookups[k]) then 1 else 0
  {
    assert cfg.lookups[..k + 1][..k] == cfg.lookups[..k];
  }

  lemma {:induction false} AnswersGrow(cfg: Config, k: nat, m: nat)
    requires k <= m <= |cfg.lookups|
    ensures Answers(cfg, k) <= Answers(cfg, m)
    decreases m - k
  {
    if k < m {
      AnswersStep(cfg, k);
      AnswersGrow(cfg, k + 1, m);
    }
  }

  /** The last unit takes a number that is not answered in full, and is idle again. */
  lemma DropNext(cfg: Config, s: State, k: nat) returns (t: State)
    requires PositiveCapacities(cfg) && Holding(cfg, s, k) && k < |cfg.lookups| && !AllAnswered(cfg.lookups[k])
    ensures Reaches(cfg, s, t) && Holding(cfg, t, k + 1)
  {
    var last := cfg.workers - 1;
    var taken := Take(cfg, s, k, last);
    t := AskOn(cfg, taken, last);
    Chain(cfg, s, taken, t);
    AnswersStep(cfg, k);
    assert t.units == s.units[last := WAITING] == s.units;
  }

  /** A unit with room: the worker, the channel or the forwarder takes one more result. */
  lemma Absorb(cfg: Config, s: State, k: nat, i: nat) returns (t: State)
    requires PositiveCapacities(cfg) && Holding(cfg, s, k) && k < |cfg.lookups| && AllAnswered(cfg.lookups[k])
    requires i < cfg.workers - 1 && Room(cfg)(s.units[i]) > 0
    ensures Reaches(cfg, s, t)
    ensures |t.units| == |s.units| && t == WithUnit(s, i, t.units[i]).(unfed := s.unfed[1..], dropped := t.dropped)
    ensures Parked(cfg, t.units[i]) && Room(cfg)(t.units[i]) == Room(cfg)(s.units[i]) - 1
  {
    var u := s.units[i];
    assert Parked(cfg, u);
    t := Take(cfg, s, k, i);
    if u.forwarder == Pulling || |u.out| < cfg.outCapacity {
      t := AbsorbSent(cfg, s, t, k, i);
    }
  }

  lemma AbsorbSent(cfg: Config, s: State, taken: State, k: nat, i: nat) returns (t: State)
    requires PositiveCapacities(cfg) && k < |cfg.lookups| && AllAnswered(cfg.lookups[k])
    requires i < |s.units| && Reaches(cfg, s, taken)
    requires taken == WithUnit(s, i, s.units[i].(worker := Asking(k, Leader))).(unfed := taken.unfed)
    requires Parked(cfg, s.units[i]) && s.units[i].worker == Receiving
         && (s.units[i].forwarder == Pulling || |s.units[i].out| < cfg.outCapacity)
    ensures Reaches(cfg, s, t)
    ensures |t.units| == |s.units| && t == WithUnit(s, i, t.units[i]).(unfed := taken.unfed, dropped := t.dropped)
    ensures Parked(cfg, t.units[i]) && Room(cfg)(t.units[i]) == Room(cfg)(s.units[i]) - 1
  {
    var u := s.units[i];
    var asked := AskOn(cfg, taken, i);
    Chain(cfg, s, taken, asked);
    Then(cfg, s, asked, WorkerStep(i));
    t := Apply(cfg, asked, WorkerStep(i));
    var p := Built(cfg.lookups[k], k);
    assert t.units[i] == u.(out := u.out + [p]);
    if u.forwarder == Pulling {
      assert u.out + [p] == [p];
      Then(cfg, s, t, ForwarderStep(i));
      t := Apply(cfg, t, ForwarderStep(i));
      assert t.units[i] == u.(out := [], forwarder := Pushing(p));
    }
  }

  lemma HoldNext(cfg: Config, s: State, k: nat) returns (t: State)
    requires PositiveCapacities(cfg) && Holding(cfg, s, k) && k < |cfg.lookups| && AllAnswered(cfg.lookups[k])
    requires Answers(cfg, k) < Hold(cfg)
    ensures Reaches(cfg, s, t) && Holding(cfg, t, k + 1)
  {
    var others := s.units[..cfg.workers - 1];
    var i := SumWitness(others, Room(cfg));
    t := Absorb(cfg, s, k, i);
    AnswersStep(cfg, k);
    SumUpdate(others, i, t.units[i], Room(cfg));
    assert t.units[..cfg.workers - 1] == others[i := t.units[i]];
  }

  lemma {:induction false} HoldUpTo(cfg: Config, s: State, k: nat, j: nat) returns (t: State)
    requires PositiveCapacities(cfg) && Holding(cfg, s, k) && k <= j <= |cfg.lookups| && Answers(cfg, j) <= Hold(cfg)
    ensures Reaches(cfg, s, t) && Holding(cfg, t, j)
    decreases j - k
  {
    if k == j {
      t := s;
      Stay(cfg, s);
    } else {
      hide Holding, Answers;
      AnswersStep(cfg, k);
      AnswersGrow(cfg, k + 1, j);
      var next;
      if AllAnswered(cfg.lookups[k]) {
        next := HoldNext(cfg, s, k);
      } else {
        next := DropNext(cfg, s, k);
      }
      t := HoldUpTo(cfg, next, k + 1, j);
      Chain(cfg, s, next, t);
    }
  }

  /** The last unit takes the next number and its result is the first to be collected. */
  lemma DeliverNext(cfg: Config, s: State, k: nat) returns (t: State)
    requires PositiveCapacities(cfg) && Holding(cfg, s, k) && k < |cfg.lookups| && AllAnswered(cfg.lookups[k])
    ensures Reaches(cfg, s, t) && t.collected == [Built(cfg.lookups[k], k)]
  {
    var last, p := cfg.workers - 1, Built(cfg.lookups[k], k);
    var taken := Take(cfg, s, k, last);
    var asked := AskOn(cfg, taken, last);
    Chain(cfg, s, taken, asked);
    Then(cfg, s, asked, WorkerStep(last));
    var sent := Apply(cfg, asked, WorkerStep(last));
    assert sent.units[last].out == [p];
    Then(cfg, s, sent, ForwarderStep(last));
    var pulled := Apply(cfg, sent, ForwarderStep(last));
    Then(cfg, s, pulled, ForwarderStep(last));
    var pushed := Apply(cfg, pulled, ForwarderStep(last));
    assert pushed.collect == [p];
    Then(cfg, s, pushed, MainStep);
    t := Apply(cfg, pushed, MainStep);
  }

  // ---------------------------------------------------------------- starting everything

  ghost predicate WorkersUp(cfg: Config, s: State, k: nat) {
    && k <= cfg.workers && |s.units| == cfg.workers
    && s == Initial(cfg).(main := StartingWorkers(k), units := s.units, workerGroup := s.workerGroup)
    && forall i :: 0 <= i < cfg.workers ==> s.units[i] == if i < k then IDLE_UNIT.(worker := Receiving) else IDLE_UNIT
  }

  ghost predicate ForwardersUp(cfg: Config, s: State, k: nat) {
    && k <= cfg.workers && |s.units| == cfg.workers
    && s == Initial(cfg).(main := StartingForwarders(k), feeder := Feeding, units := s.units,
                          workerGroup := s.workerGroup, forwarderGroup := s.forwarderGroup)
    && forall i :: 0 <= i < cfg.workers ==> s.units[i] == if i < k then WAITING else IDLE_UNIT.(worker := Receiving)
  }

  lemma {:induction false} StartWorkers(cfg: Config, s: State, k: nat) returns (t: State)
    requires WorkersUp(cfg, s, k)
    ensures Reaches(cfg, s, t) && WorkersUp(cfg, t, cfg.workers)
    decreases cfg.workers - k
  {
    Stay(cfg, s);
    if k == cfg.workers {
      t := s;
    } else {
      Then(cfg, s, s, MainStep);
      var next := Apply(cfg, s, MainStep);
      t := StartWorkers(cfg, next, k + 1);
      Chain(cfg, s, next, t);
    }
  }

  lemma {:induction false} StartForwarders(cfg: Config, s: State, k: nat) returns (t: State)
    requires ForwardersUp(cfg, s, k)
    ensures Reaches(cfg, s, t) && ForwardersUp(cfg, t, cfg.workers)
    decreases cfg.workers - k
  {
    Stay(cfg, s);
    if k == cfg.workers {
      t := s;
    } else {
      Then(cfg, s, s, MainStep);
      var next := Apply(cfg, s, MainStep);
      t := StartForwarders(cfg, next, k + 1);
      Chain(cfg, s, next, t);
    }
  }

  lemma StartAll(cfg: Config) returns (t: State)
    requires cfg.workers >= 1
    ensures Reaches(cfg, Initial(cfg), t) && Holding(cfg, t, 0)
  {
    var s := Initial(cfg);
    t := StartWorkers(cfg, s, 0);
    Then(cfg, s, t, MainStep);
    t := Apply(cfg, t, MainStep);
    Then(cfg, s, t, MainStep);
    t := Apply(cfg, t, MainStep);
    var up := StartForwarders(cfg, t, 0);
    Chain(cfg, s, t, up);
    Then(cfg, s, up, MainStep);
    t := Apply(cfg, up, MainStep);
    Then(cfg, s, t, MainStep);
    t := Apply(cfg, t, MainStep);
    AllUpIsHolding(cfg, t);
  }

  lemma AllUpIsHolding(cfg: Config, s: State)
    requires cfg.workers >= 1 && |s.units| == cfg.workers && forall i :: 0 <= i < cfg.workers ==> s.units[i] == WAITING
    requires s == Initial(cfg).(main := Collecting, closer := Waiting, feeder := Feeding, units := s.units,
                                workerGroup := s.workerGroup, forwarderGroup := s.forwarderGroup)
    ensures Holding(cfg, s, 0)
  {
    AllRoom(cfg, s.units[..cfg.workers - 1]);
    assert cfg.lookups[..0] == [];
    hide Hold, Sum, Room;
  }

  lemma AllRoom(cfg: Config, us: seq<Unit>)
    requires cfg.workers >= 1 && |us| == cfg.workers - 1 && forall u :: u in us ==> u == WAITING
    ensures Sum(us, Room(cfg)) == Hold(cfg)
  {
    SumUniform(us, Room(cfg), cfg.outCapacity + 2);
  }

  // ---------------------------------------------------------------- which partitions can come first

  lemma {:induction false} CollectedGrows(cfg: Config, s: State, steps: seq<Step>, t: State)
    requires Leads(cfg, s, steps, t)
    ensures |s.collected| <= |t.collected| && t.collected[..|s.collected|] == s.collected
    decreases |steps|
  {
    if steps != [] {
      var next := Apply(cfg, s, steps[0]);
      assert |s.collected| <= |next.collected| && next.collected[..|s.collected|] == s.collected;
      hide Apply, Enabled;
      CollectedGrows(cfg, next, steps[1..], t);
    }
  }

  /** A complete run whose first collected partition is `p`. */
  ghost predicate ComesFirst(cfg: Config, steps: seq<Step>, t: State, p: Partition) {
    Leads(cfg, Initial(cfg), steps, t) && t.main == Returned && t.collected != [] && t.collected[0] == p
  }

  lemma CanComeFirst(cfg: Config, j: nat) returns (steps: seq<Step>, t: State)
    requires PositiveCapacities(cfg) && j < |cfg.lookups| && AllAnswered(cfg.lookups[j]) && Answers(cfg, j) <= Hold(cfg)
    ensures ComesFirst(cfg, steps, t, Built(cfg.lookups[j], j))
  {
    hide Holding, Leads, Initial, Apply, Inv;
    var up := StartAll(cfg);
    var held := HoldUpTo(cfg, up, 0, j);
    var first := DeliverNext(cfg, held, j);
    Chain(cfg, Initial(cfg), up, held);
    Chain(cfg, Initial(cfg), held, first);
    var a :| Leads(cfg, Initial(cfg), a, first);
    ReachableInv(cfg, a, first);
    var b;
    b, t := CompletionExists(cfg, first);
    Onwards(cfg, Initial(cfg), a, first, b, t);
    CollectedGrows(cfg, first, b, t);
    assert t.collected[..1][0] == t.collected[0];
    steps := a + b;
  }

  lemma ComesWithin(cfg: Config, steps: seq<Step>, t: State, p: Partition)
    requires cfg.workers >= 1 && ComesFirst(cfg, steps, t, p)
    ensures p.id < |cfg.lookups| && AllAnswered(cfg.lookups[p.id]) && p == Built(cfg.lookups[p.id], p.id)
    ensures Answers(cfg, p.id) <= Hold(cfg)
  {
    InitialInv(cfg);
    InitialOrdered(cfg);
    RunKeepsOrder(cfg, Initial(cfg), steps, t);
    ReachableInv(cfg, steps, t);
    CollectedIsGood(cfg, t);
    assert Arrived(t)[0] == p;
  }

  lemma CollectedIsGood(cfg: Config, s: State)
    requires Inv(cfg, s)
    ensures AllGood(cfg, s.collected)
  {
    hide Ids;
  }

  /** The answered partitions in order of their numbers, up to the last one that the other units can let pass. */
  function FirstCandidates(cfg: Config): seq<Partition>
    requires cfg.workers >= 1
  {
    var all := Expected(cfg.lookups);
    all[..if |all| <= Hold(cfg) then |all| else Hold(cfg) + 1]
  }

  lemma {:induction false} ExpectedAt(lookups: seq<Lookups>, j: nat)
    requires j < |lookups| && AllAnswered(lookups[j])
    ensures |Expected(lookups[..j])| < |Expected(lookups)|
    ensures Expected(lookups)[|Expected(lookups[..j])|] == Built(lookups[j], j)
  {
    var n := |lookups| - 1;
    if j < n {
      ExpectedAt(lookups[..n], j);
      assert lookups[..n][..j] == lookups[..j];
    }
  }

  lemma {:induction false} ExpectedFrom(lookups: seq<Lookups>, m: nat) returns (j: nat)
    requires m < |Expected(lookups)|
    ensures j < |lookups| && AllAnswered(lookups[j]) && |Expected(lookups[..j])| == m
    ensures Expected(lookups)[m] == Built(lookups[j], j)
  {
    var n := |lookups| - 1;
    if m < |Expected(lookups[..n])| {
      j := ExpectedFrom(lookups[..n], m);
      assert lookups[..n][..j] == lookups[..j];
    } else {
      j := n;
    }
  }

  /**
   * A partition can be the first to be collected if and only if all its lookups are answered and no more answered
   * numbers come before it than the other units can hold back.
   */
  lemma ComesFirstIff(cfg: Config, p: Partition)
    requires PositiveCapacities(cfg)
    ensures (exists steps, t :: ComesFirst(cfg, steps, t, p)) <==> p in FirstCandidates(cfg)
  {
    if steps, t :| ComesFirst(cfg, steps, t, p) {
      ComesWithin(cfg, steps, t, p);
      ExpectedAt(cfg.lookups, p.id);
      assert FirstCandidates(cfg)[Answers(cfg, p.id)] == p;
    }
    if p in FirstCandidates(cfg) {
      var m :| 0 <= m < |FirstCandidates(cfg)| && FirstCandidates(cfg)[m] == p;
      var j := ExpectedFrom(cfg.lookups, m);
      var steps, t := CanComeFirst(cfg, j);
    }
  }
}
