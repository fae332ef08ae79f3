/**
 * The partition collection of one topic as a step machine: a feeder sends partition numbers down a shared channel, a
 * pool of workers looks each one up and sends the result on its own channel, one forwarder per worker moves results to
 * a common channel, and the collecting goroutine appends them to its list. Channels are closed from the front to the
 * back. Which goroutine runs next is the scheduler's choice.
 */
module PartitionNetwork {
  import opened Wrappers
  import opened Sums

  datatype Partition = Partition(id: nat, leader: int, replicas: seq<int>, inSync: seq<int>, offline: seq<int>)

  /** The client's answers for one partition; None is an error. */
  datatype Lookups = Lookups(leader: Option<int>, inSync: Option<seq<int>>, offline: Option<seq<int>>,
                             replicas: Option<seq<int>>)

  /** Pool size, channel capacities, and the answers for partition numbers 0, 1, ... */
  datatype Config = Config(workers: nat, inCapacity: nat, outCapacity: nat, collectCapacity: nat, lookups: seq<Lookups>)

  // ---------------------------------------------------------------- states

  /** The lookup a worker is waiting for, with the answers it has so far. */
  datatype Question =
    | Leader
    | InSync(leader: int)
    | Offline(leader: int, inSync: seq<int>)
    | Replicas(leader: int, inSync: seq<int>, offline: seq<int>)

  datatype WorkerPhase =
    | NotStarted
    | Receiving
    | Asking(id: nat, question: Question)
    | Sending(found: Partition)
    | Closing
    | SigningOff
    | Ended

  datatype ForwarderPhase = Unborn | Pulling | Pushing(carried: Partition) | Leaving | Gone

  /** A worker with its output channel and the forwarder that empties it. */
  datatype Unit = Unit(worker: WorkerPhase, out: seq<Partition>, outClosed: bool, forwarder: ForwarderPhase)

  datatype FeederPhase = Unspawned | Feeding | Finished

  datatype CloserPhase = NoCloser | Waiting | Closed

  datatype MainPhase =
    | StartingWorkers(next: nat)
    | StartingFeeder
    | StartingForwarders(next: nat)
    | StartingCloser
    | Collecting
    | Returned

  datatype State = State(
    main: MainPhase,
    feeder: FeederPhase,
    unfed: seq<nat>,
    inChan: seq<nat>,
    inClosed: bool,
    units: seq<Unit>,
    workerGroup: int,
    forwarderGroup: int,
    closer: CloserPhase,
    collect: seq<Partition>,
    collectClosed: bool,
    collected: seq<Partition>,
    dropped: seq<nat>)

  const IDLE_UNIT := Unit(NotStarted, [], false, Unborn)

  /** The feeder numbers the partitions by position: it sends 0 .. n-1, not the ids that the client returned. */
  function Indices(n: nat): seq<nat> {
    seq(n, i => i)
  }

  function Initial(cfg: Config): State {
    State(StartingWorkers(0), Unspawned, Indices(|cfg.lookups|), [], false, seq(cfg.workers, _ => IDLE_UNIT),
          0, 0, NoCloser, [], false, [], [])
  }

  // ---------------------------------------------------------------- lookups

  /** The next phase after the client's answer: a failed lookup abandons the partition. */
  function Answered(l: Lookups, id: nat, question: Question): WorkerPhase {
    match question
    case Leader => if l.leader.None? then Receiving else Asking(id, InSync(l.leader.value))
    case InSync(leader) => if l.inSync.None? then Receiving else Asking(id, Offline(leader, l.inSync.value))
    case Offline(leader, inSync) =>
      if l.offline.None? then Receiving else Asking(id, Replicas(leader, inSync, l.offline.value))
    case Replicas(leader, inSync, offline) =>
      if l.replicas.None? then Receiving else Sending(Partition(id, leader, l.replicas.value, inSync, offline))
  }

  predicate AllAnswered(l: Lookups) {
    l.leader.Some? && l.inSync.Some? && l.offline.Some? && l.replicas.Some?
  }

  function Built(l: Lookups, id: nat): Partition
    requires AllAnswered(l)
  {
    Partition(id, l.leader.value, l.replicas.value, l.inSync.value, l.offline.value)
  }

  // ---------------------------------------------------------------- steps

  datatype Step = MainStep | FeederStep | WorkerStep(i: nat) | ForwarderStep(i: nat) | CloserStep

  /** A send blocks while the buffer is full; on a closed channel it does not block, it panics. */
  predicate CanSend<T>(buffer: seq<T>, closed: bool, capacity: nat) {
    closed || |buffer| < capacity
  }

  predicate WorkerEnabled(cfg: Config, s: State, u: Unit) {
    match u.worker
    case NotStarted => false
    case Receiving => s.inChan != [] || s.inClosed
    case Sending(_) => CanSend(u.out, u.outClosed, cfg.outCapacity)
    case Closing => true
    case SigningOff => true
    case Ended => false
    case Asking(id, _) => id < |cfg.lookups|
  }

  predicate ForwarderEnabled(cfg: Config, s: State, u: Unit) {
    match u.forwarder
    case Unborn => false
    case Pulling => u.out != [] || u.outClosed
    case Pushing(_) => CanSend(s.collect, s.collectClosed, cfg.collectCapacity)
    case Leaving => true
    case Gone => false
  }

  predicate Enabled(cfg: Config, s: State, step: Step) {
    match step
    case MainStep =>
      (match s.main
       case StartingWorkers(k) => k <= |s.units|
       case StartingForwarders(k) => k <= |s.units|
       case Collecting => s.collect != [] || s.collectClosed
       case Returned => false
       case _ => true)
    case FeederStep => s.feeder == Feeding && (s.unfed != [] ==> CanSend(s.inChan, s.inClosed, cfg.inCapacity))
    case WorkerStep(i) => i < |s.units| && WorkerEnabled(cfg, s, s.units[i])
    case ForwarderStep(i) => i < |s.units| && ForwarderEnabled(cfg, s, s.units[i])
    case CloserStep => s.closer == Waiting && s.forwarderGroup == 0
  }

  /** Steps at which Go would panic: send on or close of a closed channel, negative wait group. */
  predicate Panics(s: State, step: Step) {
    match step
    case MainStep => false
    case FeederStep => s.inClosed
    case WorkerStep(i) =>
      && i < |s.units|
      && (match s.units[i].worker
          case Sending(_) => s.units[i].outClosed
          case Closing => s.units[i].outClosed
          case SigningOff => s.workerGroup <= 0
          case _ => false)
    case ForwarderStep(i) =>
      && i < |s.units|
      && (match s.units[i].forwarder
          case Pushing(_) => s.collectClosed
          case Leaving => s.forwarderGroup <= 0
          case _ => false)
    case CloserStep => s.collectClosed
  }

  function ApplyMain(s: State): State {
    match s.main
    case StartingWorkers(k) =>
      if k < |s.units| then
        s.(main := StartingWorkers(k + 1), workerGroup := s.workerGroup + 1,
           units := s.units[k := s.units[k].(worker := Receiving)])
      else s.(main := StartingFeeder)
    case StartingFeeder => s.(main := StartingForwarders(0), feeder := Feeding)
    case StartingForwarders(k) =>
      if k < |s.units| then
        s.(main := StartingForwarders(k + 1), forwarderGroup := s.forwarderGroup + 1,
           units := s.units[k := s.units[k].(forwarder := Pulling)])
      else s.(main := StartingCloser)
    case StartingCloser => s.(main := Collecting, closer := Waiting)
    case Collecting =>
      if s.collect != [] then s.(collect := s.collect[1..], collected := s.collected + [s.collect[0]])
      else s.(main := Returned)
    case Returned => s
  }

  function ApplyFeeder(s: State): State {
    if s.unfed != [] then s.(unfed := s.unfed[1..], inChan := s.inChan + [s.unfed[0]])
    else s.(feeder := Finished, inClosed := true)
  }

  /** The worker takes the next number off the shared channel. */
  predicate Takes(s: State, u: Unit) {
    u.worker == Receiving && s.inChan != []
  }

  function MovedWorker(cfg: Config, s: State, u: Unit): Unit
    requires WorkerEnabled(cfg, s, u)
  {
    match u.worker
    case Receiving => u.(worker := if s.inChan != [] then Asking(s.inChan[0], Leader) else Closing)
    case Sending(p) => u.(worker := Receiving, out := u.out + [p])
    case Closing => u.(worker := SigningOff, outClosed := true)
    case SigningOff => u.(worker := Ended)
    case Asking(id, question) => u.(worker := Answered(cfg.lookups[id], id, question))
    case _ => u
  }

  /** The number that a failed lookup abandons. */
  function Dropped(cfg: Config, s: State, u: Unit): seq<nat>
    requires WorkerEnabled(cfg, s, u)
  {
    if u.worker.Asking? && MovedWorker(cfg, s, u).worker == Receiving then [u.worker.id] else []
  }

  function ApplyWorker(cfg: Config, s: State, i: nat): State
    requires i < |s.units| && WorkerEnabled(cfg, s, s.units[i])
  {
    var u := s.units[i];
    s.(units := s.units[i := MovedWorker(cfg, s, u)],
       inChan := if Takes(s, u) then s.inChan[1..] else s.inChan,
       dropped := s.dropped + Dropped(cfg, s, u),
       workerGroup := if u.worker == SigningOff then s.workerGroup - 1 else s.workerGroup)
  }

  function MovedForwarder(u: Unit): Unit {
    match u.forwarder
    case Pulling =>
      if u.out != [] then u.(out := u.out[1..], forwarder := Pushing(u.out[0])) else u.(forwarder := Leaving)
    case Pushing(_) => u.(forwarder := Pulling)
    case Leaving => u.(forwarder := Gone)
    case _ => u
  }

  function Pushed(u: Unit): seq<Partition> {
    if u.forwarder.Pushing? then [u.forwarder.carried] else []
  }

  function ApplyForwarder(s: State, i: nat): State
    requires i < |s.units|
  {
    var u := s.units[i];
    s.(units := s.units[i := MovedForwarder(u)],
       collect := s.collect + Pushed(u),
       forwarderGroup := if u.forwarder == Leaving then s.forwarderGroup - 1 else s.forwarderGroup)
  }

  function Apply(cfg: Config, s: State, step: Step): State
    requires Enabled(cfg, s, step)
  {
    match step
    case MainStep => ApplyMain(s)
    case FeederStep => ApplyFeeder(s)
    case WorkerStep(i) => ApplyWorker(cfg, s, i)
    case ForwarderStep(i) => ApplyForwarder(s, i)
    case CloserStep => s.(closer := Closed, collectClosed := true)
  }

  /** `steps` is a possible schedule leading from `s` to `t`. */
  ghost predicate Leads(cfg: Config, s: State, steps: seq<Step>, t: State)
    decreases |steps|
  {
    if steps == [] then s == t
    else Enabled(cfg, s, steps[0]) && Leads(cfg, Apply(cfg, s, steps[0]), steps[1..], t)
  }

  // ---------------------------------------------------------------- conservation of partition numbers

  function IdOf(p: Partition): multiset<nat> {
    multiset{p.id}
  }

  function WorkerIds(w: WorkerPhase): multiset<nat> {
    if w.Asking? then multiset{w.id} else if w.Sending? then multiset{w.found.id} else multiset{}
  }

  function ForwarderIds(f: ForwarderPhase): multiset<nat> {
    if f.Pushing? then multiset{f.carried.id} else multiset{}
  }

  ghost function UnitIds(u: Unit): multiset<nat> {
    WorkerIds(u.worker) + Gather(u.out, IdOf) + ForwarderIds(u.forwarder)
  }

  ghost function OutsideIds(s: State): multiset<nat> {
    multiset(s.unfed) + Gather(s.collect, IdOf) + Gather(s.collected, IdOf)
  }

  /** Every partition number that is not yet fed, on its way, collected or dropped. */
  ghost function Ids(s: State): multiset<nat> {
    OutsideIds(s) + multiset(s.dropped) + multiset(s.inChan) + Gather(s.units, UnitIds)
  }

  lemma TakeFirst<T, M>(xs: seq<T>, items: T -> multiset<M>)
    requires xs != []
    ensures Gather(xs, items) == items(xs[0]) + Gather(xs[1..], items)
    ensures multiset(xs) == multiset{xs[0]} + multiset(xs[1..])
  {
    assert xs == [xs[0]] + xs[1..];
  }

  lemma MainConserves(cfg: Config, s: State)
    requires Enabled(cfg, s, MainStep)
    requires s.main.StartingWorkers? && s.main.next < |s.units| ==> s.units[s.main.next].worker == NotStarted
    requires s.main.StartingForwarders? && s.main.next < |s.units| ==> s.units[s.main.next].forwarder == Unborn
    ensures Ids(ApplyMain(s)) == Ids(s)
  {
    hide Gather;
    match s.main
    case StartingWorkers(k) =>
      if k < |s.units| {
        GatherGain(s.units, k, s.units[k].(worker := Receiving), UnitIds, multiset{});
      }
    case StartingForwarders(k) =>
      if k < |s.units| {
        GatherGain(s.units, k, s.units[k].(forwarder := Pulling), UnitIds, multiset{});
      }
    case Collecting =>
      if s.collect != [] {
        CollectConserves(s);
      }
    case _ =>
  }

  lemma CollectConserves(s: State)
    requires s.main == Collecting && s.collect != []
    ensures Ids(ApplyMain(s)) == Ids(s)
  {
    hide Gather;
    TakeFirst(s.collect, IdOf);
    GatherAppend(s.collected, s.collect[0], IdOf);
  }

  lemma FeederConserves(s: State)
    ensures Ids(ApplyFeeder(s)) == Ids(s)
  {
    if s.unfed != [] {
      var next := multiset{s.unfed[0]};
      assert s.unfed == [s.unfed[0]] + s.unfed[1..];
      hide Gather;
      MovedIn(next, multiset(s.unfed[1..]), Gather(s.collect, IdOf), Gather(s.collected, IdOf), multiset(s.dropped),
              multiset(s.inChan), Gather(s.units, UnitIds));
    }
  }

  lemma MovedIn<M>(next: multiset<M>, unfed: multiset<M>, collect: multiset<M>, collected: multiset<M>,
                   dropped: multiset<M>, chan: multiset<M>, units: multiset<M>)
    ensures ((next + unfed) + collect + collected) + dropped + chan + units
         == (unfed + collect + collected) + dropped + (chan + next) + units
  {
  }

  function Taken(s: State, u: Unit): multiset<nat> {
    if Takes(s, u) then multiset{s.inChan[0]} else multiset{}
  }

  lemma WorkerIdsMove(cfg: Config, s: State, u: Unit)
    requires WorkerEnabled(cfg, s, u) && !u.worker.Sending?
    ensures WorkerIds(MovedWorker(cfg, s, u).worker) + multiset(Dropped(cfg, s, u))
         == WorkerIds(u.worker) + Taken(s, u)
  {
    if u.worker.Asking? {
      AnswerKeepsId(cfg.lookups[u.worker.id], u.worker.id, u.worker.question);
    }
  }

  lemma AnswerKeepsId(l: Lookups, id: nat, question: Question)
    ensures var w := Answered(l, id, question);
            WorkerIds(w) == if w == Receiving then multiset{} else multiset{id}
  {
  }

  /** Items `taken` in and `dropped` out of one part of a sum. */
  lemma Exchange<M>(
    before: multiset<M>, after: multiset<M>, rest: multiset<M>, taken: multiset<M>, dropped: multiset<M>)
    requires after + dropped == before + taken
    ensures (after + rest) + dropped == (before + rest) + taken
  {
    assert (after + rest) + dropped == (after + dropped) + rest;
    assert (before + rest) + taken == (before + taken) + rest;
  }

  lemma AskingConserves(cfg: Config, s: State, u: Unit)
    requires WorkerEnabled(cfg, s, u) && !u.worker.Sending?
    ensures UnitIds(MovedWorker(cfg, s, u)) + multiset(Dropped(cfg, s, u)) == UnitIds(u) + Taken(s, u)
  {
    var v := MovedWorker(cfg, s, u);
    assert v.out == u.out && v.forwarder == u.forwarder;
    WorkerIdsMove(cfg, s, u);
    hide Gather, MovedWorker, Dropped, Taken, WorkerIds, ForwarderIds, WorkerEnabled;
    var rest := Gather(u.out, IdOf) + ForwarderIds(u.forwarder);
    Exchange(WorkerIds(u.worker), WorkerIds(v.worker), rest, Taken(s, u), multiset(Dropped(cfg, s, u)));
    assert UnitIds(u) == WorkerIds(u.worker) + rest;
    assert UnitIds(v) == WorkerIds(v.worker) + rest;
  }

  lemma SendingConserves(u: Unit)
    requires u.worker.Sending?
    ensures UnitIds(u.(worker := Receiving, out := u.out + [u.worker.found])) == UnitIds(u)
  {
    GatherAppend(u.out, u.worker.found, IdOf);
  }

  lemma WorkerUnitConserves(cfg: Config, s: State, u: Unit)
    requires WorkerEnabled(cfg, s, u)
    ensures UnitIds(MovedWorker(cfg, s, u)) + multiset(Dropped(cfg, s, u)) == UnitIds(u) + Taken(s, u)
  {
    if u.worker.Sending? {
      SendingConserves(u);
    } else {
      AskingConserves(cfg, s, u);
    }
  }

  lemma WorkerConserves(cfg: Config, s: State, i: nat)
    requires Enabled(cfg, s, WorkerStep(i))
    ensures Ids(ApplyWorker(cfg, s, i)) == Ids(s)
  {
    var u := s.units[i];
    var v := MovedWorker(cfg, s, u);
    var t := ApplyWorker(cfg, s, i);
    WorkerUnitConserves(cfg, s, u);
    TakenOff(s, u);
    GatherUpdate(s.units, i, v, UnitIds);
    assert OutsideIds(t) == OutsideIds(s);
    assert multiset(t.dropped) == multiset(s.dropped) + multiset(Dropped(cfg, s, u));
    hide Gather, Taken, Dropped, MovedWorker, UnitIds, OutsideIds, WorkerEnabled;
    Balance(OutsideIds(s), multiset(s.dropped), multiset(s.inChan), multiset(t.inChan), Gather(s.units, UnitIds),
            Gather(t.units, UnitIds), UnitIds(u), UnitIds(v), Taken(s, u), multiset(Dropped(cfg, s, u)));
  }

  lemma TakenOff(s: State, u: Unit)
    ensures multiset(s.inChan) == Taken(s, u) + multiset(if Takes(s, u) then s.inChan[1..] else s.inChan)
  {
    if Takes(s, u) {
      assert s.inChan == [s.inChan[0]] + s.inChan[1..];
    }
  }

  /** The multiset bookkeeping of a worker's step. */
  lemma Balance<M>(rest: multiset<M>, lost: multiset<M>, chan: multiset<M>, chan': multiset<M>, units: multiset<M>,
                   units': multiset<M>, own: multiset<M>, own': multiset<M>, taken: multiset<M>, dropped: multiset<M>)
    requires chan == taken + chan'
    requires own' + dropped == own + taken
    requires units' + own == units + own'
    ensures rest + (lost + dropped) + chan' + units' == rest + lost + chan + units
  {
    forall x ensures (rest + (lost + dropped) + chan' + units')[x] == (rest + lost + chan + units)[x] {
      assert (own' + dropped)[x] == (own + taken)[x];
      assert (units' + own)[x] == (units + own')[x];
    }
  }

  lemma PullingConserves(u: Unit)
    requires u.forwarder == Pulling && u.out != []
    ensures UnitIds(u) == UnitIds(MovedForwarder(u))
  {
    TakeFirst(u.out, IdOf);
    assert ForwarderIds(u.forwarder) == multiset{} && ForwarderIds(Pushing(u.out[0])) == IdOf(u.out[0]);
    hide Gather, WorkerIds, ForwarderIds, IdOf;
  }

  lemma PushedIds(u: Unit)
    ensures Gather(Pushed(u), IdOf) == if u.forwarder.Pushing? then IdOf(u.forwarder.carried) else multiset{}
  {
    if u.forwarder.Pushing? {
      assert Pushed(u)[1..] == [];
    }
  }

  lemma ForwarderUnitConserves(u: Unit)
    ensures UnitIds(u) == UnitIds(MovedForwarder(u)) + Gather(Pushed(u), IdOf)
  {
    PushedIds(u);
    hide Pushed, Gather;
    if u.forwarder == Pulling && u.out != [] {
      PullingConserves(u);
    } else {
      hide WorkerIds;
      assert MovedForwarder(u).out == u.out && MovedForwarder(u).worker == u.worker;
    }
  }

  ghost function OtherIds(s: State): multiset<nat> {
    multiset(s.unfed) + Gather(s.collected, IdOf) + multiset(s.dropped) + multiset(s.inChan)
  }

  lemma IdsSplit(s: State)
    ensures Ids(s) == OtherIds(s) + (Gather(s.units, UnitIds) + Gather(s.collect, IdOf))
  {
    hide Gather;
  }

  lemma MovedAcross<M>(a: multiset<M>, a': multiset<M>, b: multiset<M>, b': multiset<M>, moved: multiset<M>)
    requires a == a' + moved && b' == b + moved
    ensures a' + b' == a + b
  {
  }

  lemma ForwarderConserves(cfg: Config, s: State, i: nat)
    requires Enabled(cfg, s, ForwarderStep(i))
    ensures Ids(ApplyForwarder(s, i)) == Ids(s)
  {
    var u, t := s.units[i], ApplyForwarder(s, i);
    ForwarderUnitConserves(u);
    IdsSplit(s);
    IdsSplit(t);
    assert OtherIds(t) == OtherIds(s);
    hide Gather, UnitIds, MovedForwarder, Pushed, Ids, OtherIds;
    GatherConcat(s.collect, Pushed(u), IdOf);
    GatherLoss(s.units, i, MovedForwarder(u), UnitIds, Gather(Pushed(u), IdOf));
    MovedAcross(Gather(s.units, UnitIds), Gather(t.units, UnitIds), Gather(s.collect, IdOf), Gather(t.collect, IdOf),
                Gather(Pushed(u), IdOf));
  }

  // ---------------------------------------------------------------- what the carried values are

  ghost predicate GoodPartition(cfg: Config, p: Partition) {
    && p.id < |cfg.lookups|
    && AllAnswered(cfg.lookups[p.id])
    && p == Built(cfg.lookups[p.id], p.id)
  }

  /** The answers a worker keeps are the client's. */
  predicate AnswersMatch(l: Lookups, question: Question) {
    match question
    case Leader => true
    case InSync(leader) => l.leader == Some(leader)
    case Offline(leader, inSync) => l.leader == Some(leader) && l.inSync == Some(inSync)
    case Replicas(leader, inSync, offline) =>
      l.leader == Some(leader) && l.inSync == Some(inSync) && l.offline == Some(offline)
  }

  ghost predicate GoodUnit(cfg: Config, u: Unit) {
    && (u.worker.Asking? ==> u.worker.id < |cfg.lookups| && AnswersMatch(cfg.lookups[u.worker.id], u.worker.question))
    && (u.worker.Sending? ==> GoodPartition(cfg, u.worker.found))
    && AllGood(cfg, u.out)
    && (u.forwarder.Pushing? ==> GoodPartition(cfg, u.forwarder.carried))
  }

  predicate InPlan(cfg: Config, ids: seq<nat>) {
    forall k :: 0 <= k < |ids| ==> ids[k] < |cfg.lookups|
  }

  ghost predicate AllGood(cfg: Config, ps: seq<Partition>) {
    forall k :: 0 <= k < |ps| ==> GoodPartition(cfg, ps[k])
  }

  predicate AllFailed(cfg: Config, ids: seq<nat>) {
    forall k :: 0 <= k < |ids| ==> ids[k] < |cfg.lookups| && !AllAnswered(cfg.lookups[ids[k]])
  }

  ghost predicate UnitsGood(cfg: Config, s: State) {
    forall k :: 0 <= k < |s.units| ==> GoodUnit(cfg, s.units[k])
  }

  ghost predicate Sound(cfg: Config, s: State) {
    && InPlan(cfg, s.unfed) && InPlan(cfg, s.inChan)
    && UnitsGood(cfg, s)
    && AllGood(cfg, s.collect) && AllGood(cfg, s.collected)
    && AllFailed(cfg, s.dropped)
  }

  lemma WorkerGood(cfg: Config, s: State, u: Unit)
    requires Sound(cfg, s) && GoodUnit(cfg, u) && WorkerEnabled(cfg, s, u)
    ensures GoodUnit(cfg, MovedWorker(cfg, s, u))
    ensures AllFailed(cfg, Dropped(cfg, s, u))
  {
    if u.worker.Asking? {
      AnswerGood(cfg, u.worker.id, u.worker.question);
    }
  }

  lemma AnswerGood(cfg: Config, id: nat, question: Question)
    requires id < |cfg.lookups| && AnswersMatch(cfg.lookups[id], question)
    ensures var v := Answered(cfg.lookups[id], id, question);
            && (v.Asking? ==> v.id == id && AnswersMatch(cfg.lookups[id], v.question))
            && (v.Sending? ==> GoodPartition(cfg, v.found))
            && (v == Receiving ==> !AllAnswered(cfg.lookups[id]))
            && (v.Asking? || v.Sending? || v == Receiving)
  {
  }

  lemma WorkerSound(cfg: Config, s: State, i: nat)
    requires Sound(cfg, s) && Enabled(cfg, s, WorkerStep(i))
    ensures Sound(cfg, ApplyWorker(cfg, s, i))
  {
    WorkerGood(cfg, s, s.units[i]);
    hide MovedWorker, Dropped;
  }

  lemma ForwarderGood(cfg: Config, u: Unit)
    requires GoodUnit(cfg, u)
    ensures GoodUnit(cfg, MovedForwarder(u))
    ensures AllGood(cfg, Pushed(u))
  {
  }

  lemma ForwarderSound(cfg: Config, s: State, i: nat)
    requires Sound(cfg, s) && Enabled(cfg, s, ForwarderStep(i))
    ensures Sound(cfg, ApplyForwarder(s, i))
  {
    ForwarderGood(cfg, s.units[i]);
    hide MovedForwarder, Pushed;
  }

  lemma MainSound(cfg: Config, s: State)
    requires Sound(cfg, s) && Enabled(cfg, s, MainStep)
    ensures Sound(cfg, ApplyMain(s))
  {
  }

  // ---------------------------------------------------------------- control: what is open, closed, started, counted

  function WorkerCover(u: Unit): int {
    if u.worker == NotStarted || u.worker == Ended then 0 else 1
  }

  function ForwarderCover(u: Unit): int {
    if u.forwarder == Unborn || u.forwarder == Gone then 0 else 1
  }

  /** The workers with numbers below this bound have been started. */
  function StartedWorkers(s: State): nat {
    if s.main.StartingWorkers? then s.main.next else |s.units|
  }

  function StartedForwarders(s: State): nat {
    match s.main
    case StartingWorkers(_) => 0
    case StartingFeeder => 0
    case StartingForwarders(k) => k
    case _ => |s.units|
  }

  predicate WorkerPast(u: Unit) {
    u.worker == Closing || u.worker == SigningOff || u.worker == Ended
  }

  ghost predicate UnitControl(cfg: Config, u: Unit, drained: bool, started: bool, forwarded: bool) {
    && (u.worker == NotStarted <==> !started)
    && (u.forwarder == Unborn <==> !forwarded)
    && (u.outClosed <==> u.worker == SigningOff || u.worker == Ended)
    && (WorkerPast(u) ==> drained)
    && |u.out| <= cfg.outCapacity
    && (u.forwarder == Leaving || u.forwarder == Gone ==> u.outClosed && u.out == [])
  }

  ghost predicate ChannelControl(cfg: Config, s: State) {
    && |s.units| == cfg.workers
    && StartedWorkers(s) <= |s.units| && StartedForwarders(s) <= |s.units|
    && (s.inClosed <==> s.feeder == Finished)
    && (s.feeder == Finished ==> s.unfed == [])
    && (s.feeder == Unspawned <==> s.main.StartingWorkers? || s.main == StartingFeeder)
    && |s.inChan| <= cfg.inCapacity
    && (s.closer == NoCloser <==> s.main != Collecting && s.main != Returned)
    && (s.collectClosed <==> s.closer == Closed)
    && (s.collectClosed ==> s.forwarderGroup == 0)
    && |s.collect| <= cfg.collectCapacity
    && (s.main == Returned ==> s.collectClosed && s.collect == [])
  }

  predicate Drained(s: State) {
    s.inClosed && s.inChan == []
  }

  ghost predicate UnitsControl(cfg: Config, s: State) {
    forall i :: 0 <= i < |s.units|
      ==> UnitControl(cfg, s.units[i], Drained(s), i < StartedWorkers(s), i < StartedForwarders(s))
  }

  ghost predicate Counted(s: State) {
    && s.workerGroup == Sum(s.units, WorkerCover)
    && s.forwarderGroup == Sum(s.units, ForwarderCover)
  }

  ghost predicate Inv(cfg: Config, s: State) {
    && Ids(s) == multiset(Indices(|cfg.lookups|))
    && Sound(cfg, s)
    && ChannelControl(cfg, s)
    && UnitsControl(cfg, s)
    && Counted(s)
  }

  lemma InitialInv(cfg: Config)
    ensures Inv(cfg, Initial(cfg))
  {
    InitialIds(cfg);
    var s := Initial(cfg);
    assert Counted(s) by {
      SumUniform(s.units, WorkerCover, 0);
      SumUniform(s.units, ForwarderCover, 0);
    }
    hide Ids, Counted;
  }

  lemma InitialIds(cfg: Config)
    ensures Ids(Initial(cfg)) == multiset(Indices(|cfg.lookups|))
  {
    GatherEmpty(Initial(cfg).units, UnitIds);
  }

  lemma MainCounted(cfg: Config, s: State)
    requires UnitsControl(cfg, s) && Counted(s) && Enabled(cfg, s, MainStep)
    ensures Counted(ApplyMain(s))
  {
    if s.main.StartingWorkers? && s.main.next < |s.units| {
      var k := s.main.next;
      SumUpdate(s.units, k, s.units[k].(worker := Receiving), WorkerCover);
      SumUpdate(s.units, k, s.units[k].(worker := Receiving), ForwarderCover);
    } else if s.main.StartingForwarders? && s.main.next < |s.units| {
      var k := s.main.next;
      SumUpdate(s.units, k, s.units[k].(forwarder := Pulling), WorkerCover);
      SumUpdate(s.units, k, s.units[k].(forwarder := Pulling), ForwarderCover);
    }
  }

  lemma WorkerCounted(cfg: Config, s: State, i: nat)
    requires Counted(s) && Enabled(cfg, s, WorkerStep(i))
    ensures Counted(ApplyWorker(cfg, s, i))
  {
    hide Sum;
    SumUpdate(s.units, i, MovedWorker(cfg, s, s.units[i]), WorkerCover);
    SumUpdate(s.units, i, MovedWorker(cfg, s, s.units[i]), ForwarderCover);
  }

  lemma ForwarderCounted(cfg: Config, s: State, i: nat)
    requires Counted(s) && Enabled(cfg, s, ForwarderStep(i))
    ensures Counted(ApplyForwarder(s, i))
  {
    hide Sum;
    SumUpdate(s.units, i, MovedForwarder(s.units[i]), WorkerCover);
    SumUpdate(s.units, i, MovedForwarder(s.units[i]), ForwarderCover);
  }

  /** A forwarder still at work keeps the common channel open. */
  lemma ForwarderKeepsOpen(cfg: Config, s: State, i: nat)
    requires ChannelControl(cfg, s) && Counted(s) && i < |s.units|
    ensures ForwarderCover(s.units[i]) <= s.forwarderGroup && WorkerCover(s.units[i]) <= s.workerGroup
    ensures ForwarderCover(s.units[i]) > 0 ==> !s.collectClosed
  {
    SumBoundsElement(s.units, i, ForwarderCover);
    SumBoundsElement(s.units, i, WorkerCover);
  }

  lemma MainControl(cfg: Config, s: State)
    requires ChannelControl(cfg, s) && UnitsControl(cfg, s) && Enabled(cfg, s, MainStep)
    ensures ChannelControl(cfg, ApplyMain(s)) && UnitsControl(cfg, ApplyMain(s))
  {
    var t := ApplyMain(s);
    forall i | 0 <= i < |t.units|
      ensures UnitControl(cfg, t.units[i], Drained(t), i < StartedWorkers(t), i < StartedForwarders(t))
    {
      assert UnitControl(cfg, s.units[i], Drained(s), i < StartedWorkers(s), i < StartedForwarders(s));
    }
  }

  lemma FeederControl(cfg: Config, s: State)
    requires ChannelControl(cfg, s) && UnitsControl(cfg, s) && Enabled(cfg, s, FeederStep)
    ensures ChannelControl(cfg, ApplyFeeder(s)) && UnitsControl(cfg, ApplyFeeder(s))
  {
    var t := ApplyFeeder(s);
    forall i | 0 <= i < |t.units|
      ensures UnitControl(cfg, t.units[i], Drained(t), i < StartedWorkers(t), i < StartedForwarders(t))
    {
      assert UnitControl(cfg, s.units[i], Drained(s), i < StartedWorkers(s), i < StartedForwarders(s));
    }
  }

  lemma WorkerUnitControl(cfg: Config, s: State, u: Unit, started: bool, forwarded: bool)
    requires WorkerEnabled(cfg, s, u) && UnitControl(cfg, u, Drained(s), started, forwarded)
    ensures UnitControl(cfg, MovedWorker(cfg, s, u), Drained(s), started, forwarded)
  {
  }

  lemma WorkerControl(cfg: Config, s: State, i: nat)
    requires ChannelControl(cfg, s) && UnitsControl(cfg, s) && Enabled(cfg, s, WorkerStep(i))
    ensures ChannelControl(cfg, ApplyWorker(cfg, s, i)) && UnitsControl(cfg, ApplyWorker(cfg, s, i))
  {
    WorkerUnitControl(cfg, s, s.units[i], i < StartedWorkers(s), i < StartedForwarders(s));
    hide MovedWorker, Dropped;
    var t := ApplyWorker(cfg, s, i);
    forall k | 0 <= k < |t.units|
      ensures UnitControl(cfg, t.units[k], Drained(t), k < StartedWorkers(t), k < StartedForwarders(t))
    {
      assert UnitControl(cfg, s.units[k], Drained(s), k < StartedWorkers(s), k < StartedForwarders(s));
    }
  }

  lemma ForwarderUnitControl(cfg: Config, s: State, u: Unit, started: bool, forwarded: bool)
    requires ForwarderEnabled(cfg, s, u) && UnitControl(cfg, u, Drained(s), started, forwarded)
    ensures UnitControl(cfg, MovedForwarder(u), Drained(s), started, forwarded)
  {
  }

  lemma ForwarderControl(cfg: Config, s: State, i: nat)
    requires ChannelControl(cfg, s) && UnitsControl(cfg, s) && Counted(s) && Enabled(cfg, s, ForwarderStep(i))
    ensures ChannelControl(cfg, ApplyForwarder(s, i)) && UnitsControl(cfg, ApplyForwarder(s, i))
  {
    ForwarderUnitControl(cfg, s, s.units[i], i < StartedWorkers(s), i < StartedForwarders(s));
    ForwarderKeepsOpen(cfg, s, i);
    hide MovedForwarder;
    var t := ApplyForwarder(s, i);
    forall k | 0 <= k < |t.units|
      ensures UnitControl(cfg, t.units[k], Drained(t), k < StartedWorkers(t), k < StartedForwarders(t))
    {
      assert UnitControl(cfg, s.units[k], Drained(s), k < StartedWorkers(s), k < StartedForwarders(s));
    }
  }

  lemma MainKeepsInv(cfg: Config, s: State)
    requires Inv(cfg, s) && Enabled(cfg, s, MainStep)
    ensures Inv(cfg, ApplyMain(s))
  {
    assert s.main.StartingWorkers? && s.main.next < |s.units| ==> s.units[s.main.next].worker == NotStarted;
    assert s.main.StartingForwarders? && s.main.next < |s.units| ==> s.units[s.main.next].forwarder == Unborn;
    hide Ids, Sound, ChannelControl, UnitsControl, Counted, ApplyMain;
    MainConserves(cfg, s);
    MainSound(cfg, s);
    MainControl(cfg, s);
    MainCounted(cfg, s);
  }

  lemma FeederSound(cfg: Config, s: State)
    requires Sound(cfg, s)
    ensures Sound(cfg, ApplyFeeder(s))
  {
  }

  lemma FeederKeepsInv(cfg: Config, s: State)
    requires Inv(cfg, s) && Enabled(cfg, s, FeederStep)
    ensures Inv(cfg, ApplyFeeder(s))
  {
    FeederConserves(s);
    FeederSound(cfg, s);
    FeederControl(cfg, s);
    hide Ids, Sound, ChannelControl, UnitsControl;
  }

  lemma CloserKeepsInv(cfg: Config, s: State)
    requires Inv(cfg, s) && Enabled(cfg, s, CloserStep)
    ensures Inv(cfg, Apply(cfg, s, CloserStep))
  {
    hide Gather, Sum, GoodUnit, GoodPartition, UnitControl;
    var t := Apply(cfg, s, CloserStep);
    assert Ids(t) == Ids(s) && Sound(cfg, t) && Counted(t) && ChannelControl(cfg, t);
    assert StartedWorkers(t) == StartedWorkers(s) && StartedForwarders(t) == StartedForwarders(s);
  }

  lemma StepKeepsInv(cfg: Config, s: State, step: Step)
    requires Inv(cfg, s) && Enabled(cfg, s, step)
    ensures Inv(cfg, Apply(cfg, s, step))
  {
    hide Ids, Sound, ChannelControl, UnitsControl, Counted, ApplyMain, ApplyFeeder, ApplyWorker, ApplyForwarder,
      WorkerEnabled, ForwarderEnabled;
    match step
    case MainStep => MainKeepsInv(cfg, s);
    case FeederStep => FeederKeepsInv(cfg, s);
    case WorkerStep(i) =>
      WorkerConserves(cfg, s, i);
      WorkerSound(cfg, s, i);
      WorkerControl(cfg, s, i);
      WorkerCounted(cfg, s, i);
    case ForwarderStep(i) =>
      ForwarderConserves(cfg, s, i);
      ForwarderSound(cfg, s, i);
      ForwarderControl(cfg, s, i);
      ForwarderCounted(cfg, s, i);
    case CloserStep => CloserKeepsInv(cfg, s);
  }

  lemma {:induction false} RunKeepsInv(cfg: Config, s: State, steps: seq<Step>, t: State)
    requires Inv(cfg, s) && Leads(cfg, s, steps, t)
    ensures Inv(cfg, t)
    decreases |steps|
  {
    hide Inv, Enabled, Apply;
    if steps != [] {
      StepKeepsInv(cfg, s, steps[0]);
      RunKeepsInv(cfg, Apply(cfg, s, steps[0]), steps[1..], t);
    }
  }

  // ---------------------------------------------------------------- no panic, no deadlock

  lemma ReachableInv(cfg: Config, steps: seq<Step>, t: State)
    requires Leads(cfg, Initial(cfg), steps, t)
    ensures Inv(cfg, t)
  {
    InitialInv(cfg);
    RunKeepsInv(cfg, Initial(cfg), steps, t);
  }

  /** At every step each partition number 0 .. n-1 is in exactly one place. */
  lemma NothingLostOrDuplicated(cfg: Config, steps: seq<Step>, t: State)
    requires Leads(cfg, Initial(cfg), steps, t)
    ensures Ids(t) == multiset(Indices(|cfg.lookups|))
  {
    ReachableInv(cfg, steps, t);
  }

  /** No schedule sends on or closes a closed channel, or takes a wait group below zero. */
  lemma NeverPanics(cfg: Config, steps: seq<Step>, t: State, step: Step)
    requires Leads(cfg, Initial(cfg), steps, t)
    requires Enabled(cfg, t, step)
    ensures !Panics(t, step)
  {
    ReachableInv(cfg, steps, t);
    InvForbidsPanic(cfg, t, step);
  }

  lemma InvForbidsPanic(cfg: Config, s: State, step: Step)
    requires Inv(cfg, s) && Enabled(cfg, s, step)
    ensures !Panics(s, step)
  {
    hide Ids, Sound;
    if step.WorkerStep? || step.ForwarderStep? {
      ForwarderKeepsOpen(cfg, s, step.i);
    }
  }

  predicate PositiveCapacities(cfg: Config) {
    cfg.workers >= 1 && cfg.inCapacity >= 1 && cfg.outCapacity >= 1 && cfg.collectCapacity >= 1
  }

  /** What can run when a started forwarder waits on an empty, open channel. */
  lemma UpstreamEnabled(cfg: Config, s: State, i: nat) returns (step: Step)
    requires PositiveCapacities(cfg) && Inv(cfg, s)
    requires s.main == Collecting
    requires i < |s.units| && s.units[i].forwarder == Pulling && s.units[i].out == [] && !s.units[i].outClosed
    ensures Enabled(cfg, s, step)
  {
    hide Ids;
    var u := s.units[i];
    assert UnitControl(cfg, u, Drained(s), true, true);
    assert GoodUnit(cfg, u);
    if WorkerEnabled(cfg, s, u) {
      step := WorkerStep(i);
    } else {
      step := FeederStep;
    }
  }

  lemma EnabledStep(cfg: Config, s: State) returns (step: Step)
    requires PositiveCapacities(cfg) && Inv(cfg, s) && s.main != Returned
    ensures Enabled(cfg, s, step)
  {
    hide Ids, Sound;
    if s.main != Collecting || s.collect != [] || s.collectClosed {
      step := MainStep;
    } else if s.forwarderGroup == 0 {
      step := CloserStep;
    } else {
      SumNonNegative(s.units, ForwarderCover);
      var i := SumWitness(s.units, ForwarderCover);
      assert UnitControl(cfg, s.units[i], Drained(s), true, true);
      if ForwarderEnabled(cfg, s, s.units[i]) {
        step := ForwarderStep(i);
      } else {
        step := UpstreamEnabled(cfg, s, i);
      }
    }
  }

  /** A pool of at least one worker with positive capacities never gets stuck before the collector has returned. */
  lemma NeverStuck(cfg: Config, steps: seq<Step>, t: State)
    requires cfg.workers >= 1 && cfg.inCapacity >= 1 && cfg.outCapacity >= 1 && cfg.collectCapacity >= 1
    requires Leads(cfg, Initial(cfg), steps, t) && t.main != Returned
    ensures exists step :: Enabled(cfg, t, step)
  {
    ReachableInv(cfg, steps, t);
    var step := EnabledStep(cfg, t);
  }

  // ---------------------------------------------------------------- every run ends

  function WorkerRank(w: WorkerPhase): int {
    match w
    case NotStarted => 3
    case Receiving => 3
    case Asking(_, question) =>
      (match question case Leader => 13 case InSync(_) => 12 case Offline(_, _) => 11 case Replicas(_, _, _) => 10)
    case Sending(_) => 9
    case Closing => 2
    case SigningOff => 1
    case Ended => 0
  }

  function ForwarderRank(f: ForwarderPhase): int {
    match f
    case Unborn => 2
    case Pulling => 2
    case Pushing(_) => 6
    case Leaving => 1
    case Gone => 0
  }

  function UnitRank(u: Unit): int {
    WorkerRank(u.worker) + 5 * |u.out| + ForwarderRank(u.forwarder)
  }

  function MainRank(s: State): int {
    var n := |s.units|;
    match s.main
    case StartingWorkers(k) => 2 * n + 6 - k
    case StartingFeeder => n + 5
    case StartingForwarders(k) => n + 4 - k
    case StartingCloser => 3
    case Collecting => 2
    case Returned => 1
  }

  function SharedRank(s: State): int {
    12 * |s.unfed| + 11 * |s.inChan| + 3 * |s.collect|
    + (if s.feeder == Finished then 0 else 1) + (if s.closer == Closed then 0 else 1)
  }

  ghost function Rank(s: State): int {
    MainRank(s) + SharedRank(s) + Sum(s.units, UnitRank)
  }

  lemma UnitMoveLowersRank(cfg: Config, s: State, u: Unit)
    ensures WorkerEnabled(cfg, s, u) ==> UnitRank(MovedWorker(cfg, s, u)) < UnitRank(u) + if Takes(s, u) then 11 else 0
    ensures ForwarderEnabled(cfg, s, u) ==> UnitRank(MovedForwarder(u)) + 3 * |Pushed(u)| < UnitRank(u)
  {
  }

  lemma WorkerLowersRank(cfg: Config, s: State, i: nat)
    requires Enabled(cfg, s, WorkerStep(i))
    ensures Rank(ApplyWorker(cfg, s, i)) < Rank(s)
  {
    UnitMoveLowersRank(cfg, s, s.units[i]);
    hide Sum, UnitRank, MovedWorker, Dropped, WorkerEnabled;
    SumUpdate(s.units, i, MovedWorker(cfg, s, s.units[i]), UnitRank);
  }

  lemma ForwarderLowersRank(cfg: Config, s: State, i: nat)
    requires Enabled(cfg, s, ForwarderStep(i))
    ensures Rank(ApplyForwarder(s, i)) < Rank(s)
  {
    UnitMoveLowersRank(cfg, s, s.units[i]);
    hide Sum, UnitRank, MovedForwarder, Pushed, ForwarderEnabled;
    SumUpdate(s.units, i, MovedForwarder(s.units[i]), UnitRank);
  }

  lemma MainLowersRank(cfg: Config, s: State)
    requires ChannelControl(cfg, s) && UnitsControl(cfg, s) && Enabled(cfg, s, MainStep)
    ensures Rank(ApplyMain(s)) < Rank(s)
  {
    if s.main.StartingWorkers? && s.main.next < |s.units| {
      SumUpdate(s.units, s.main.next, s.units[s.main.next].(worker := Receiving), UnitRank);
    } else if s.main.StartingForwarders? && s.main.next < |s.units| {
      SumUpdate(s.units, s.main.next, s.units[s.main.next].(forwarder := Pulling), UnitRank);
    }
  }

  /** Every step lowers the rank. */
  lemma StepLowersRank(cfg: Config, s: State, step: Step)
    requires Inv(cfg, s) && Enabled(cfg, s, step)
    ensures Rank(Apply(cfg, s, step)) < Rank(s)
  {
    match step
    case MainStep => MainLowersRank(cfg, s);
    case FeederStep =>
    case WorkerStep(i) => WorkerLowersRank(cfg, s, i);
    case ForwarderStep(i) => ForwarderLowersRank(cfg, s, i);
    case CloserStep =>
  }

  lemma RankNonNegative(cfg: Config, s: State)
    requires Inv(cfg, s)
    ensures Rank(s) >= 0
  {
    SumNonNegative(s.units, UnitRank);
    MainRankPositive(cfg, s);
    hide Sum, MainRank, UnitRank, Inv;
  }

  lemma MainRankPositive(cfg: Config, s: State)
    requires Inv(cfg, s)
    ensures MainRank(s) > 0
  {
    hide Ids, Sound;
  }

  lemma {:induction false} RunLength(cfg: Config, s: State, steps: seq<Step>, t: State)
    requires Inv(cfg, s) && Leads(cfg, s, steps, t)
    ensures |steps| <= Rank(s)
    decreases |steps|
  {
    hide Inv, Enabled, Apply, Rank;
    RankNonNegative(cfg, s);
    if steps != [] {
      StepKeepsInv(cfg, s, steps[0]);
      StepLowersRank(cfg, s, steps[0]);
      RunLength(cfg, Apply(cfg, s, steps[0]), steps[1..], t);
    }
  }

  /** Every run ends: at most twelve steps per partition and seven per worker, and eight for the rest. */
  lemma EveryRunEnds(cfg: Config, steps: seq<Step>, t: State)
    requires Leads(cfg, Initial(cfg), steps, t)
    ensures |steps| <= 12 * |cfg.lookups| + 7 * cfg.workers + 8
  {
    InitialInv(cfg);
    RunLength(cfg, Initial(cfg), steps, t);
    SumUniform(Initial(cfg).units, UnitRank, 5);
  }

  /** From every reachable state some schedule completes the run. */
  lemma {:induction false} CompletionExists(cfg: Config, s: State) returns (steps: seq<Step>, t: State)
    requires PositiveCapacities(cfg) && Inv(cfg, s)
    ensures Leads(cfg, s, steps, t) && t.main == Returned
    decreases Rank(s)
  {
    hide Inv, Enabled, Apply, Rank;
    RankNonNegative(cfg, s);
    if s.main == Returned {
      steps, t := [], s;
    } else {
      var step := EnabledStep(cfg, s);
      StepKeepsInv(cfg, s, step);
      StepLowersRank(cfg, s, step);
      RankNonNegative(cfg, Apply(cfg, s, step));
      var rest;
      rest, t := CompletionExists(cfg, Apply(cfg, s, step));
      steps := [step] + rest;
      assert steps[1..] == rest;
    }
  }

  // ---------------------------------------------------------------- what is collected

  lemma ReturnedUnits(cfg: Config, s: State, i: nat)
    requires Inv(cfg, s) && s.main == Returned && i < |s.units|
    ensures s.units[i].forwarder == Gone && s.units[i].outClosed && s.units[i].out == []
    ensures WorkerPast(s.units[i]) && Drained(s)
  {
    hide Ids, Sound;
    ForwarderKeepsOpen(cfg, s, i);
    assert UnitControl(cfg, s.units[i], Drained(s), true, true);
  }

  /** When the collector has returned, every channel is closed and every forwarder gone. */
  lemma ReturnedIsClosed(cfg: Config, steps: seq<Step>, t: State)
    requires cfg.workers >= 1
    requires Leads(cfg, Initial(cfg), steps, t) && t.main == Returned
    ensures t.inClosed && t.inChan == [] && t.unfed == [] && t.collectClosed && t.collect == []
    ensures forall i :: 0 <= i < |t.units|
              ==> t.units[i].outClosed && t.units[i].out == [] && t.units[i].forwarder == Gone
  {
    ReachableInv(cfg, steps, t);
    hide Ids, Sound;
    forall i | 0 <= i < |t.units|
      ensures t.units[i].outClosed && t.units[i].out == [] && t.units[i].forwarder == Gone
    {
      ReturnedUnits(cfg, t, i);
    }
    ReturnedUnits(cfg, t, 0);
  }

  /** Then nothing is left on the way. */
  lemma ReturnedIsEmpty(cfg: Config, s: State)
    requires cfg.workers >= 1 && Inv(cfg, s) && s.main == Returned
    ensures Ids(s) == Gather(s.collected, IdOf) + multiset(s.dropped)
  {
    ReturnedUnits(cfg, s, 0);
    assert s.unfed == [] && s.inChan == [] && s.collect == [];
    ReturnedHoldNothing(cfg, s);
    hide Inv;
  }

  lemma ReturnedHoldNothing(cfg: Config, s: State)
    requires Inv(cfg, s) && s.main == Returned
    ensures Gather(s.units, UnitIds) == multiset{}
  {
    hide Inv;
    forall u | u in s.units ensures UnitIds(u) == multiset{} {
      var i :| 0 <= i < |s.units| && s.units[i] == u;
      ReturnedUnits(cfg, s, i);
    }
    GatherEmpty(s.units, UnitIds);
  }

  /** The partitions whose four lookups all succeed, in order of their numbers. */
  function Expected(lookups: seq<Lookups>): seq<Partition> {
    if lookups == [] then []
    else
      var n := |lookups| - 1;
      Expected(lookups[..n]) + if AllAnswered(lookups[n]) then [Built(lookups[n], n)] else []
  }

  lemma {:induction false} ExpectedCount(lookups: seq<Lookups>, p: Partition)
    ensures multiset(Expected(lookups))[p]
         == if p.id < |lookups| && AllAnswered(lookups[p.id]) && p == Built(lookups[p.id], p.id) then 1 else 0
  {
    if lookups != [] {
      ExpectedCount(lookups[..|lookups| - 1], p);
    }
  }

  lemma {:induction false} IndicesCount(n: nat, id: nat)
    ensures multiset(Indices(n))[id] == if id < n then 1 else 0
  {
    if n > 0 {
      IndicesCount(n - 1, id);
      assert Indices(n) == Indices(n - 1) + [n - 1];
    }
  }

  lemma {:induction false} GoodCount(cfg: Config, ps: seq<Partition>, p: Partition)
    requires AllGood(cfg, ps) && GoodPartition(cfg, p)
    ensures multiset(ps)[p] == Gather(ps, IdOf)[p.id]
  {
    if ps != [] {
      TakeFirst(ps, IdOf);
      assert GoodPartition(cfg, ps[0]);
      assert AllGood(cfg, ps[1..]);
      GoodCount(cfg, ps[1..], p);
    }
  }

  lemma CollectedCount(cfg: Config, s: State, p: Partition)
    requires cfg.workers >= 1 && Inv(cfg, s) && s.main == Returned
    ensures multiset(s.collected)[p] == multiset(Expected(cfg.lookups))[p]
  {
    ExpectedCount(cfg.lookups, p);
    if GoodPartition(cfg, p) {
      ReturnedIsEmpty(cfg, s);
      GoodCount(cfg, s.collected, p);
      IndicesCount(|cfg.lookups|, p.id);
      assert p.id !in s.dropped;
      assert Ids(s)[p.id] == 1;
    } else {
      assert p !in s.collected;
    }
  }

  /** After a complete run the list holds exactly the partitions whose four lookups succeeded, each once. */
  lemma CollectsExactly(cfg: Config, steps: seq<Step>, t: State)
    requires cfg.workers >= 1
    requires Leads(cfg, Initial(cfg), steps, t) && t.main == Returned
    ensures multiset(t.collected) == multiset(Expected(cfg.lookups))
  {
    ReachableInv(cfg, steps, t);
    forall p ensures multiset(t.collected)[p] == multiset(Expected(cfg.lookups))[p] {
      CollectedCount(cfg, t, p);
    }
  }

  /** Field by field: what a complete run collects for a partition number are its own four answers, once. */
  lemma CollectedIff(cfg: Config, steps: seq<Step>, t: State, p: Partition)
    requires cfg.workers >= 1
    requires Leads(cfg, Initial(cfg), steps, t) && t.main == Returned
    ensures p in t.collected <==>
            && p.id < |cfg.lookups|
            && cfg.lookups[p.id].leader == Some(p.leader)
            && cfg.lookups[p.id].replicas == Some(p.replicas)
            && cfg.lookups[p.id].inSync == Some(p.inSync)
            && cfg.lookups[p.id].offline == Some(p.offline)
    ensures multiset(t.collected)[p] <= 1
  {
    CollectsExactly(cfg, steps, t);
    ExpectedCount(cfg.lookups, p);
  }

  // ---------------------------------------------------------------- numbers sent versus ids returned by the client

  /** The fed numbers are the client's partition ids if and only if those ids cover 0 .. n-1. */
  lemma FeedsClientIdsIff(partitionIDs: seq<nat>)
    ensures multiset(Indices(|partitionIDs|)) == multiset(partitionIDs)
       <==> forall id :: 0 <= id < |partitionIDs| ==> id in partitionIDs
  {
    var n := |partitionIDs|;
    if multiset(Indices(n)) == multiset(partitionIDs) {
      forall id | 0 <= id < n ensures id in partitionIDs {
        IndicesCount(n, id);
        assert id in multiset(partitionIDs);
      }
    }
    if forall id :: 0 <= id < n ==> id in partitionIDs {
      CoverIsPermutation(partitionIDs, n);
    }
  }

  lemma {:induction false} CoverIsPermutation(ids: seq<nat>, n: nat)
    requires |ids| == n && forall id :: 0 <= id < n ==> id in ids
    ensures multiset(ids) == multiset(Indices(n))
  {
    if n > 0 {
      assert n - 1 in ids;
      var i :| 0 <= i < n && ids[i] == n - 1;
      var rest := ids[..i] + ids[i + 1..];
      WithoutElement(ids, i);
      forall id | 0 <= id < n - 1 ensures id in rest {
        assert id in ids && id in multiset(ids);
        assert id in multiset(rest);
      }
      CoverIsPermutation(rest, n - 1);
      assert Indices(n) == Indices(n - 1) + [n - 1];
    }
  }

  /** When the client's ids do not start at 0, the worker looks up a partition that was never listed. */
  lemma FeedsUnlistedPartition()
    ensures multiset(Indices(1)) != multiset([7])
  {
    assert 7 in multiset([7]);
    IndicesCount(1, 7);
  }
}
