/**
 * The concurrent lag collection of one consumer group as a step machine. The main goroutine spawns one goroutine per
 * task, then starts the two aggregators and waits. Every partition goroutine sends its message on one or two bounded
 * channels before it signs off from its wait groups; a closer per channel waits for the wait group and closes the
 * channel; an aggregator per channel receives until the channel is closed and drained. Which step runs next is the
 * scheduler's choice.
 */
module LagPipeline {
  import opened Wrappers
  import opened LagJobs
  import opened Sums

  // ---------------------------------------------------------------- states

  /**
   * What one partition goroutine will do: `active` ones serve both channels; `message` is what it sends, if anything.
   */
  datatype Task = Task(active: bool, message: Option<PartitionLag>)

  datatype Phase = Looking | SendingClient | SendingGroup | ReleasingClient | ReleasingGroup | Finished

  datatype Worker = Worker(task: Task, phase: Phase)

  datatype Side = ClientSide | GroupSide

  datatype CloserPhase = Unborn | AwaitingWorkers | Closed

  datatype AggregatorPhase = Idle | Launching | Receiving | Releasing | Done

  /** One channel with the wait group, the closer and the aggregator that belong to it. */
  datatype Lane = Lane(
    waitGroup: int,
    buffer: seq<PartitionLag>,
    closed: bool,
    closer: CloserPhase,
    aggregator: AggregatorPhase,
    received: seq<PartitionLag>)

  datatype MainPhase = Spawning | StartingClient | StartingGroup | AwaitingResults | Returned

  /** `results` is the counter of the wait group that the main goroutine waits for. */
  datatype State = State(
    main: MainPhase,
    pending: seq<Task>,
    workers: seq<Worker>,
    results: int,
    client: Lane,
    group: Lane)
  {
    function On(side: Side): Lane {
      if side.ClientSide? then client else group
    }

    function With(side: Side, lane: Lane): State {
      if side.ClientSide? then this.(client := lane) else this.(group := lane)
    }
  }

  const EMPTY_LANE := Lane(0, [], false, Unborn, Idle, [])

  function Initial(tasks: seq<Task>): State {
    State(Spawning, tasks, [], 0, EMPTY_LANE, EMPTY_LANE)
  }

  // ---------------------------------------------------------------- steps

  datatype Step = MainStep | WorkerStep(i: nat) | CloserStep(closing: Side) | AggregatorStep(aggregating: Side)

  function NextPhase(w: Worker): Phase {
    match w.phase
    case Looking =>
      if w.task.message.Some? then (if w.task.active then SendingClient else SendingGroup)
      else (if w.task.active then ReleasingClient else ReleasingGroup)
    case SendingClient => SendingGroup
    case SendingGroup => if w.task.active then ReleasingClient else ReleasingGroup
    case ReleasingClient => ReleasingGroup
    case ReleasingGroup => Finished
    case Finished => Finished
  }

  /** A send blocks while the buffer is full; on a closed channel it does not block, it panics. */
  predicate CanSend(capacity: nat, lane: Lane) {
    lane.closed || |lane.buffer| < capacity
  }

  predicate Enabled(capacity: nat, s: State, step: Step) {
    match step
    case MainStep =>
      s.main != Returned && (s.main == AwaitingResults ==> s.results == 0)
    case WorkerStep(i) =>
      && i < |s.workers|
      && s.workers[i].phase != Finished
      && (s.workers[i].phase == SendingClient ==> CanSend(capacity, s.client))
      && (s.workers[i].phase == SendingGroup ==> CanSend(capacity, s.group))
    case CloserStep(side) =>
      s.On(side).closer == AwaitingWorkers && s.On(side).waitGroup == 0
    case AggregatorStep(side) =>
      var lane := s.On(side);
      (lane.aggregator == Launching || lane.aggregator == Releasing)
          || (lane.aggregator == Receiving && (lane.buffer != [] || lane.closed))
  }

  /** Steps at which Go would panic: send on a closed channel, close of a closed channel, negative wait group. */
  predicate Panics(s: State, step: Step) {
    match step
    case MainStep => false
    case WorkerStep(i) =>
      && i < |s.workers|
      && (match s.workers[i].phase
          case SendingClient => s.client.closed
          case SendingGroup => s.group.closed
          case ReleasingClient => s.client.waitGroup <= 0
          case ReleasingGroup => s.group.waitGroup <= 0
          case _ => false)
    case CloserStep(side) => s.On(side).closed
    case AggregatorStep(side) => s.On(side).aggregator == Releasing && s.results <= 0
  }

  function Spawn(s: State): State
    requires s.pending != []
  {
    var task := s.pending[0];
    s.(pending := s.pending[1..],
       workers := s.workers + [Worker(task, Looking)],
       client := if task.active then s.client.(waitGroup := s.client.waitGroup + 1) else s.client,
       group := s.group.(waitGroup := s.group.waitGroup + 1))
  }

  function ApplyMain(s: State): State {
    match s.main
    case Spawning => if s.pending != [] then Spawn(s) else s.(main := StartingClient)
    case StartingClient =>
      s.(main := StartingGroup, results := s.results + 1, client := s.client.(aggregator := Launching))
    case StartingGroup =>
      s.(main := AwaitingResults, results := s.results + 1, group := s.group.(aggregator := Launching))
    case AwaitingResults => s.(main := Returned)
    case Returned => s
  }

  function Send(lane: Lane, task: Task): Lane {
    if task.message.Some? then lane.(buffer := lane.buffer + [task.message.value]) else lane
  }

  function Moved(w: Worker): Worker {
    w.(phase := NextPhase(w))
  }

  /** The effect of a worker's step on the client lane. */
  function ClientAfter(lane: Lane, w: Worker): Lane {
    match w.phase
    case SendingClient => Send(lane, w.task)
    case ReleasingClient => lane.(waitGroup := lane.waitGroup - 1)
    case _ => lane
  }

  /** The effect of a worker's step on the group lane. */
  function GroupAfter(lane: Lane, w: Worker): Lane {
    match w.phase
    case SendingGroup => Send(lane, w.task)
    case ReleasingGroup => lane.(waitGroup := lane.waitGroup - 1)
    case _ => lane
  }

  function ApplyWorker(s: State, i: nat): State
    requires i < |s.workers|
  {
    var w := s.workers[i];
    s.(workers := s.workers[i := Moved(w)], client := ClientAfter(s.client, w), group := GroupAfter(s.group, w))
  }

  function Close(lane: Lane): Lane {
    lane.(closed := true, closer := Closed)
  }

  /** An aggregator first launches its closer, then receives until the channel is closed and drained, then signs off. */
  function AdvanceAggregator(lane: Lane): Lane {
    match lane.aggregator
    case Launching => lane.(aggregator := Receiving, closer := AwaitingWorkers)
    case Receiving =>
      if lane.buffer != [] then lane.(buffer := lane.buffer[1..], received := lane.received + [lane.buffer[0]])
      else lane.(aggregator := Releasing)
    case Releasing => lane.(aggregator := Done)
    case _ => lane
  }

  function ApplyAggregator(s: State, side: Side): State {
    var moved := s.With(side, AdvanceAggregator(s.On(side)));
    if s.On(side).aggregator == Releasing then moved.(results := s.results - 1) else moved
  }

  function Apply(capacity: nat, s: State, step: Step): State
    requires Enabled(capacity, s, step)
  {
    match step
    case MainStep => ApplyMain(s)
    case WorkerStep(i) => ApplyWorker(s, i)
    case CloserStep(side) => s.With(side, Close(s.On(side)))
    case AggregatorStep(side) => ApplyAggregator(s, side)
  }

  /** `steps` is a possible schedule leading from `s` to `t`. */
  ghost predicate Leads(capacity: nat, s: State, steps: seq<Step>, t: State)
    decreases |steps|
  {
    if steps == [] then s == t
    else Enabled(capacity, s, steps[0]) && Leads(capacity, Apply(capacity, s, steps[0]), steps[1..], t)
  }

  // ---------------------------------------------------------------- the invariant

  function ClientCover(w: Worker): int {
    if w.task.active && (w.phase != ReleasingGroup && w.phase != Finished) then 1 else 0
  }

  function GroupCover(w: Worker): int {
    if w.phase == Finished then 0 else 1
  }

  function Sent(task: Task): multiset<PartitionLag> {
    if task.message.Some? then multiset{task.message.value} else multiset{}
  }

  function ClientMessages(task: Task): multiset<PartitionLag> {
    if task.active then Sent(task) else multiset{}
  }

  function ClientSent(w: Worker): multiset<PartitionLag> {
    if (w.phase == Looking || w.phase == SendingClient) then multiset{} else ClientMessages(w.task)
  }

  function GroupSent(w: Worker): multiset<PartitionLag> {
    if (w.phase == Looking || w.phase == SendingClient || w.phase == SendingGroup) then multiset{} else Sent(w.task)
  }

  predicate PhaseFits(w: Worker) {
    && ((w.phase == SendingClient || w.phase == SendingGroup) ==> w.task.message.Some?)
    && ((w.phase == SendingClient || w.phase == ReleasingClient) ==> w.task.active)
  }

  predicate Working(lane: Lane) {
    (lane.aggregator == Launching || lane.aggregator == Receiving || lane.aggregator == Releasing)
  }

  ghost predicate LaneInv(capacity: nat, lane: Lane, cover: int, sent: multiset<PartitionLag>) {
    && lane.waitGroup == cover
    && multiset(lane.received) + multiset(lane.buffer) == sent
    && |lane.buffer| <= capacity
    && (lane.closed <==> lane.closer == Closed)
    && (lane.closed ==> cover == 0)
    && ((lane.aggregator == Releasing || lane.aggregator == Done) ==> lane.closed && lane.buffer == [])
    && (lane.closer == Unborn <==> (lane.aggregator == Idle || lane.aggregator == Launching))
  }

  ghost predicate Inv(capacity: nat, tasks: seq<Task>, s: State) {
    && TasksInv(tasks, s)
    && LaneInv(capacity, s.client, Sum(s.workers, ClientCover), Gather(s.workers, ClientSent))
    && LaneInv(capacity, s.group, Sum(s.workers, GroupCover), Gather(s.workers, GroupSent))
    && MainInv(s)
  }

  /** The workers carry out the first tasks, in order; the rest are still to be spawned. */
  ghost predicate TasksInv(tasks: seq<Task>, s: State) {
    && |s.workers| <= |tasks|
    && (forall i :: 0 <= i < |s.workers| ==> s.workers[i].task == tasks[i] && PhaseFits(s.workers[i]))
    && s.pending == tasks[|s.workers|..]
    && (s.main != Spawning ==> s.pending == [])
  }

  predicate MainInv(s: State) {
    && (s.client.aggregator == Idle <==> (s.main == Spawning || s.main == StartingClient))
    && (s.group.aggregator == Idle <==> (s.main == Spawning || s.main == StartingClient || s.main == StartingGroup))
    && s.results == (if Working(s.client) then 1 else 0) + (if Working(s.group) then 1 else 0)
    && (s.main == Returned ==> s.results == 0)
  }

  lemma InitialInv(capacity: nat, tasks: seq<Task>)
    ensures Inv(capacity, tasks, Initial(tasks))
  {
  }

  lemma SendKeepsLane(capacity: nat, lane: Lane, cover: int, sent: multiset<PartitionLag>, task: Task)
    requires LaneInv(capacity, lane, cover, sent) && !lane.closed && CanSend(capacity, lane)
    ensures LaneInv(capacity, Send(lane, task), cover, sent + Sent(task))
  {
  }

  lemma SpawnKeepsInv(capacity: nat, tasks: seq<Task>, s: State)
    requires Inv(capacity, tasks, s) && s.main == Spawning && s.pending != []
    ensures Inv(capacity, tasks, Spawn(s))
  {
    var w := Worker(s.pending[0], Looking);
    SpawnKeepsLane(capacity, s.client, s.workers, w, ClientCover, ClientSent);
    SpawnKeepsLane(capacity, s.group, s.workers, w, GroupCover, GroupSent);
    SpawnKeepsTasks(tasks, s);
    hide LaneInv, TasksInv, Sum, Gather;
  }

  lemma SpawnKeepsLane(
    capacity: nat, lane: Lane, ws: seq<Worker>, w: Worker, cover: Worker -> int, sent: Worker -> multiset<PartitionLag>)
    requires LaneInv(capacity, lane, Sum(ws, cover), Gather(ws, sent)) && !lane.closed
    requires sent(w) == multiset{}
    ensures LaneInv(capacity, lane.(waitGroup := lane.waitGroup + cover(w)), Sum(ws + [w], cover),
                    Gather(ws + [w], sent))
  {
    SumAppend(ws, w, cover);
    GatherAppend(ws, w, sent);
    assert Gather(ws + [w], sent) == Gather(ws, sent);
  }

  lemma SpawnKeepsTasks(tasks: seq<Task>, s: State)
    requires TasksInv(tasks, s) && s.main == Spawning && s.pending != []
    ensures TasksInv(tasks, Spawn(s))
  {
  }

  lemma MainKeepsInv(capacity: nat, tasks: seq<Task>, s: State)
    requires Inv(capacity, tasks, s) && Enabled(capacity, s, MainStep)
    ensures Inv(capacity, tasks, ApplyMain(s))
  {
    if s.main == Spawning && s.pending != [] {
      SpawnKeepsInv(capacity, tasks, s);
    }
  }

  /** An unfinished worker keeps its wait groups above zero, so the channels it still sends on are open. */
  lemma CoveredWorker(capacity: nat, tasks: seq<Task>, s: State, i: nat)
    requires Inv(capacity, tasks, s) && i < |s.workers|
    ensures ClientCover(s.workers[i]) <= s.client.waitGroup
    ensures GroupCover(s.workers[i]) <= s.group.waitGroup
    ensures ClientCover(s.workers[i]) > 0 ==> !s.client.closed
    ensures GroupCover(s.workers[i]) > 0 ==> !s.group.closed
  {
    SumBoundsElement(s.workers, i, ClientCover);
    SumBoundsElement(s.workers, i, GroupCover);
  }

  lemma WorkerKeepsTasks(tasks: seq<Task>, s: State, i: nat)
    requires TasksInv(tasks, s) && i < |s.workers|
    ensures TasksInv(tasks, ApplyWorker(s, i))
  {
    assert PhaseFits(Moved(s.workers[i]));
  }

  function ClientGain(w: Worker): multiset<PartitionLag> {
    if w.phase == SendingClient then Sent(w.task) else multiset{}
  }

  function GroupGain(w: Worker): multiset<PartitionLag> {
    if w.phase == SendingGroup then Sent(w.task) else multiset{}
  }

  lemma ClientGained(ws: seq<Worker>, i: nat)
    requires i < |ws| && PhaseFits(ws[i])
    ensures Gather(ws[i := Moved(ws[i])], ClientSent) == Gather(ws, ClientSent) + ClientGain(ws[i])
  {
    GatherGain(ws, i, Moved(ws[i]), ClientSent, ClientGain(ws[i]));
  }

  lemma GroupGained(ws: seq<Worker>, i: nat)
    requires i < |ws| && PhaseFits(ws[i])
    ensures Gather(ws[i := Moved(ws[i])], GroupSent) == Gather(ws, GroupSent) + GroupGain(ws[i])
  {
    GatherGain(ws, i, Moved(ws[i]), GroupSent, GroupGain(ws[i]));
  }

  lemma ClientAfterKeepsLane(capacity: nat, lane: Lane, cover: int, sent: multiset<PartitionLag>, w: Worker)
    requires LaneInv(capacity, lane, cover, sent) && PhaseFits(w)
    requires ClientCover(w) > 0 ==> !lane.closed
    requires w.phase == SendingClient ==> CanSend(capacity, lane)
    ensures LaneInv(capacity, ClientAfter(lane, w),
                    cover - ClientCover(w) + ClientCover(Moved(w)), sent + ClientGain(w))
  {
    if w.phase == SendingClient {
      SendKeepsLane(capacity, lane, cover, sent, w.task);
    }
  }

  lemma GroupAfterKeepsLane(capacity: nat, lane: Lane, cover: int, sent: multiset<PartitionLag>, w: Worker)
    requires LaneInv(capacity, lane, cover, sent) && PhaseFits(w)
    requires GroupCover(w) > 0 ==> !lane.closed
    requires w.phase == SendingGroup ==> CanSend(capacity, lane)
    ensures LaneInv(capacity, GroupAfter(lane, w), cover - GroupCover(w) + GroupCover(Moved(w)), sent + GroupGain(w))
  {
    if w.phase == SendingGroup {
      SendKeepsLane(capacity, lane, cover, sent, w.task);
    }
  }

  lemma WorkerKeepsClientLane(capacity: nat, tasks: seq<Task>, s: State, i: nat)
    requires Inv(capacity, tasks, s) && Enabled(capacity, s, WorkerStep(i))
    ensures var ws := s.workers[i := Moved(s.workers[i])];
            LaneInv(capacity, ClientAfter(s.client, s.workers[i]), Sum(ws, ClientCover), Gather(ws, ClientSent))
  {
    var w := s.workers[i];
    CoveredWorker(capacity, tasks, s, i);
    ClientGained(s.workers, i);
    SumUpdate(s.workers, i, Moved(w), ClientCover);
    hide Sum, Gather, Moved, LaneInv, ClientAfter;
    ClientAfterKeepsLane(capacity, s.client, Sum(s.workers, ClientCover), Gather(s.workers, ClientSent), w);
  }

  lemma WorkerKeepsGroupLane(capacity: nat, tasks: seq<Task>, s: State, i: nat)
    requires Inv(capacity, tasks, s) && Enabled(capacity, s, WorkerStep(i))
    ensures var ws := s.workers[i := Moved(s.workers[i])];
            LaneInv(capacity, GroupAfter(s.group, s.workers[i]), Sum(ws, GroupCover), Gather(ws, GroupSent))
  {
    var w := s.workers[i];
    CoveredWorker(capacity, tasks, s, i);
    GroupGained(s.workers, i);
    SumUpdate(s.workers, i, Moved(w), GroupCover);
    hide Sum, Gather, Moved;
    GroupAfterKeepsLane(capacity, s.group, Sum(s.workers, GroupCover), Gather(s.workers, GroupSent), w);
  }

  lemma WorkerKeepsMain(s: State, i: nat)
    requires MainInv(s) && i < |s.workers|
    ensures MainInv(ApplyWorker(s, i))
  {
  }

  lemma WorkerKeepsInv(capacity: nat, tasks: seq<Task>, s: State, i: nat)
    requires Inv(capacity, tasks, s) && Enabled(capacity, s, WorkerStep(i))
    ensures Inv(capacity, tasks, ApplyWorker(s, i))
  {
    WorkerKeepsTasks(tasks, s, i);
    WorkerKeepsClientLane(capacity, tasks, s, i);
    WorkerKeepsGroupLane(capacity, tasks, s, i);
    WorkerKeepsMain(s, i);
  }

  lemma CloseKeepsLane(capacity: nat, lane: Lane, cover: int, sent: multiset<PartitionLag>)
    requires LaneInv(capacity, lane, cover, sent)
    requires lane.closer == AwaitingWorkers && lane.waitGroup == 0
    ensures LaneInv(capacity, Close(lane), cover, sent)
  {
  }

  lemma AggregatorKeepsLane(capacity: nat, lane: Lane, cover: int, sent: multiset<PartitionLag>)
    requires LaneInv(capacity, lane, cover, sent)
    requires lane.aggregator == Receiving ==> lane.buffer != [] || lane.closed
    ensures LaneInv(capacity, AdvanceAggregator(lane), cover, sent)
  {
    if lane.buffer != [] {
      assert lane.buffer == [lane.buffer[0]] + lane.buffer[1..];
    }
  }

  lemma CloserKeepsInv(capacity: nat, tasks: seq<Task>, s: State, side: Side)
    requires Inv(capacity, tasks, s) && Enabled(capacity, s, CloserStep(side))
    ensures Inv(capacity, tasks, Apply(capacity, s, CloserStep(side)))
  {
    if side.ClientSide? {
      CloseKeepsLane(capacity, s.client, Sum(s.workers, ClientCover), Gather(s.workers, ClientSent));
    } else {
      CloseKeepsLane(capacity, s.group, Sum(s.workers, GroupCover), Gather(s.workers, GroupSent));
    }
    var t := Apply(capacity, s, CloserStep(side));
    assert TasksInv(tasks, t) && MainInv(t);
  }

  lemma AggregatorKeepsInv(capacity: nat, tasks: seq<Task>, s: State, side: Side)
    requires Inv(capacity, tasks, s) && Enabled(capacity, s, AggregatorStep(side))
    ensures Inv(capacity, tasks, ApplyAggregator(s, side))
  {
    if side.ClientSide? {
      AggregatorKeepsLane(capacity, s.client, Sum(s.workers, ClientCover), Gather(s.workers, ClientSent));
    } else {
      AggregatorKeepsLane(capacity, s.group, Sum(s.workers, GroupCover), Gather(s.workers, GroupSent));
    }
    var t := ApplyAggregator(s, side);
    assert TasksInv(tasks, t) && MainInv(t);
  }

  lemma StepKeepsInv(capacity: nat, tasks: seq<Task>, s: State, step: Step)
    requires Inv(capacity, tasks, s) && Enabled(capacity, s, step)
    ensures Inv(capacity, tasks, Apply(capacity, s, step))
  {
    match step
    case MainStep => MainKeepsInv(capacity, tasks, s);
    case WorkerStep(i) => WorkerKeepsInv(capacity, tasks, s, i);
    case CloserStep(side) => CloserKeepsInv(capacity, tasks, s, side);
    case AggregatorStep(side) => AggregatorKeepsInv(capacity, tasks, s, side);
  }

  lemma {:induction false} RunKeepsInv(capacity: nat, tasks: seq<Task>, s: State, steps: seq<Step>, t: State)
    requires Inv(capacity, tasks, s) && Leads(capacity, s, steps, t)
    ensures Inv(capacity, tasks, t)
    decreases |steps|
  {
    if steps != [] {
      StepKeepsInv(capacity, tasks, s, steps[0]);
      RunKeepsInv(capacity, tasks, Apply(capacity, s, steps[0]), steps[1..], t);
    }
  }

  /** In every reachable state each wait group counts exactly the unfinished goroutines it covers. */
  lemma WaitGroupsCount(capacity: nat, tasks: seq<Task>, steps: seq<Step>, t: State)
    requires Leads(capacity, Initial(tasks), steps, t)
    ensures t.client.waitGroup == Sum(t.workers, ClientCover)
    ensures t.group.waitGroup == Sum(t.workers, GroupCover)
    ensures t.client.closed ==> forall i :: 0 <= i < |t.workers| ==> ClientCover(t.workers[i]) == 0
    ensures t.group.closed ==> forall i :: 0 <= i < |t.workers| ==> t.workers[i].phase == Finished
  {
    InitialInv(capacity, tasks);
    RunKeepsInv(capacity, tasks, Initial(tasks), steps, t);
    forall i | 0 <= i < |t.workers|
      ensures t.client.closed ==> ClientCover(t.workers[i]) == 0
      ensures t.group.closed ==> t.workers[i].phase == Finished
    {
      CoveredWorker(capacity, tasks, t, i);
    }
  }

  // ---------------------------------------------------------------- no panic, no deadlock

  /** No schedule ever sends on or closes a closed channel, or takes a wait group below zero. */
  lemma NeverPanics(capacity: nat, tasks: seq<Task>, steps: seq<Step>, t: State, step: Step)
    requires Leads(capacity, Initial(tasks), steps, t)
    requires Enabled(capacity, t, step)
    ensures !Panics(t, step)
  {
    InitialInv(capacity, tasks);
    RunKeepsInv(capacity, tasks, Initial(tasks), steps, t);
    if step.WorkerStep? {
      CoveredWorker(capacity, tasks, t, step.i);
    }
  }

  lemma SomeWorkerUnfinished(s: State) returns (i: nat)
    requires Sum(s.workers, ClientCover) > 0 || Sum(s.workers, GroupCover) > 0
    ensures i < |s.workers| && s.workers[i].phase != Finished
  {
    if Sum(s.workers, ClientCover) > 0 {
      i := SumWitness(s.workers, ClientCover);
    } else {
      i := SumWitness(s.workers, GroupCover);
    }
  }

  /** What can run next when the main goroutine has not returned. */
  lemma EnabledStep(capacity: nat, tasks: seq<Task>, s: State) returns (step: Step)
    requires capacity >= 1
    requires Inv(capacity, tasks, s) && s.main != Returned
    ensures Enabled(capacity, s, step)
  {
    SumNonNegative(s.workers, ClientCover);
    SumNonNegative(s.workers, GroupCover);
    if s.main != AwaitingResults || s.results == 0 {
      step := MainStep;
    } else if Enabled(capacity, s, AggregatorStep(ClientSide)) {
      step := AggregatorStep(ClientSide);
    } else if Enabled(capacity, s, AggregatorStep(GroupSide)) {
      step := AggregatorStep(GroupSide);
    } else {
      assert s.client.buffer == [] && s.group.buffer == [];
      if Sum(s.workers, ClientCover) > 0 || Sum(s.workers, GroupCover) > 0 {
        var i := SomeWorkerUnfinished(s);
        step := WorkerStep(i);
      } else {
        step := CloserStep(if s.client.closer == AwaitingWorkers then ClientSide else GroupSide);
      }
    }
  }

  /** A reachable state with nothing left to run is one in which the main goroutine has returned, and conversely. */
  lemma StuckIffReturned(capacity: nat, tasks: seq<Task>, steps: seq<Step>, t: State)
    requires capacity >= 1
    requires Leads(capacity, Initial(tasks), steps, t)
    ensures (forall step :: !Enabled(capacity, t, step)) <==> t.main == Returned
  {
    InitialInv(capacity, tasks);
    RunKeepsInv(capacity, tasks, Initial(tasks), steps, t);
    if t.main != Returned {
      var step := EnabledStep(capacity, tasks, t);
      assert Enabled(capacity, t, step);
    } else {
      ReturnedIsQuiet(capacity, tasks, t);
    }
  }

  /** When the main goroutine returns, every other goroutine has ended and both channels are closed and drained. */
  lemma ReturnedIsQuiet(capacity: nat, tasks: seq<Task>, s: State)
    requires Inv(capacity, tasks, s) && s.main == Returned
    ensures |s.workers| == |tasks|
    ensures forall i :: 0 <= i < |s.workers| ==> s.workers[i].phase == Finished
    ensures s.client.closed && s.client.buffer == [] && s.client.aggregator == Done
    ensures s.group.closed && s.group.buffer == [] && s.group.aggregator == Done
    ensures forall step :: !Enabled(capacity, s, step)
  {
    forall i | 0 <= i < |s.workers| ensures s.workers[i].phase == Finished {
      CoveredWorker(capacity, tasks, s, i);
    }
    forall step ensures !Enabled(capacity, s, step) {
    }
  }

  // ---------------------------------------------------------------- every run ends

  function PhaseRank(w: Worker): int {
    match w.phase
    case Looking => 9
    case SendingClient => 8
    case SendingGroup => 6
    case ReleasingClient => 4
    case ReleasingGroup => 3
    case Finished => 0
  }

  function LaneRank(lane: Lane): int {
    (match lane.closer case Unborn => 2 case AwaitingWorkers => 1 case Closed => 0)
    + (match lane.aggregator case Idle => 4 case Launching => 4 case Receiving => 2 case Releasing => 1 case Done => 0)
    + |lane.buffer|
  }

  function MainRank(s: State): int {
    (match s.main
     case Spawning => 4
     case StartingClient => 3
     case StartingGroup => 2
     case AwaitingResults => 1
     case Returned => 0)
    + 10 * |s.pending|
  }

  ghost function Rank(s: State): int {
    MainRank(s) + Sum(s.workers, PhaseRank) + LaneRank(s.client) + LaneRank(s.group)
  }

  lemma RankNonNegative(s: State)
    ensures Rank(s) >= 0
  {
    SumNonNegative(s.workers, PhaseRank);
  }

  lemma MainLowersRank(s: State)
    requires s.main != Returned && MainInv(s)
    ensures Rank(ApplyMain(s)) < Rank(s)
  {
    if s.main == Spawning && s.pending != [] {
      SumAppend(s.workers, Worker(s.pending[0], Looking), PhaseRank);
    }
  }

  lemma WorkerLowersRank(s: State, i: nat)
    requires i < |s.workers| && s.workers[i].phase != Finished && PhaseFits(s.workers[i])
    ensures Rank(ApplyWorker(s, i)) < Rank(s)
  {
    var w := s.workers[i];
    SumUpdate(s.workers, i, Moved(w), PhaseRank);
  }

  lemma AggregatorLowersRank(lane: Lane)
    requires (lane.aggregator == Launching || lane.aggregator == Receiving || lane.aggregator == Releasing)
    requires lane.aggregator == Launching ==> lane.closer == Unborn
    ensures LaneRank(AdvanceAggregator(lane)) < LaneRank(lane)
  {
  }

  /** Every step lowers the rank. */
  lemma StepLowersRank(capacity: nat, tasks: seq<Task>, s: State, step: Step)
    requires Inv(capacity, tasks, s) && Enabled(capacity, s, step)
    ensures Rank(Apply(capacity, s, step)) < Rank(s)
  {
    match step
    case MainStep => MainLowersRank(s);
    case WorkerStep(i) => WorkerLowersRank(s, i);
    case CloserStep(side) => assert LaneRank(Close(s.On(side))) < LaneRank(s.On(side));
    case AggregatorStep(side) => AggregatorLowersRank(s.On(side));
  }

  lemma {:induction false} RunLength(capacity: nat, tasks: seq<Task>, s: State, steps: seq<Step>, t: State)
    requires Inv(capacity, tasks, s) && Leads(capacity, s, steps, t)
    ensures |steps| <= Rank(s)
    decreases |steps|
  {
    RankNonNegative(s);
    if steps != [] {
      StepKeepsInv(capacity, tasks, s, steps[0]);
      StepLowersRank(capacity, tasks, s, steps[0]);
      RunLength(capacity, tasks, Apply(capacity, s, steps[0]), steps[1..], t);
    }
  }

  /** Every run ends: no schedule is longer than ten steps per task and sixteen for the rest. */
  lemma EveryRunEnds(capacity: nat, tasks: seq<Task>, steps: seq<Step>, t: State)
    requires Leads(capacity, Initial(tasks), steps, t)
    ensures |steps| <= 10 * |tasks| + 16
  {
    InitialInv(capacity, tasks);
    RunLength(capacity, tasks, Initial(tasks), steps, t);
  }

  /** From every reachable state some schedule completes the run. */
  lemma {:induction false} CompletionExists(capacity: nat, tasks: seq<Task>, s: State)
    returns (steps: seq<Step>, t: State)
    requires capacity >= 1
    requires Inv(capacity, tasks, s)
    ensures Leads(capacity, s, steps, t) && t.main == Returned
    decreases Rank(s)
  {
    RankNonNegative(s);
    if s.main == Returned {
      steps, t := [], s;
    } else {
      var step := EnabledStep(capacity, tasks, s);
      StepKeepsInv(capacity, tasks, s, step);
      StepLowersRank(capacity, tasks, s, step);
      RankNonNegative(Apply(capacity, s, step));
      var rest;
      rest, t := CompletionExists(capacity, tasks, Apply(capacity, s, step));
      steps := [step] + rest;
      assert steps[1..] == rest;
    }
  }

  // ---------------------------------------------------------------- what the aggregators receive

  /** After a complete run each aggregator has received every message sent to it, exactly once. */
  lemma CompleteRunDelivers(capacity: nat, tasks: seq<Task>, steps: seq<Step>, t: State)
    requires Leads(capacity, Initial(tasks), steps, t) && t.main == Returned
    ensures multiset(t.client.received) == Gather(tasks, ClientMessages)
    ensures multiset(t.group.received) == Gather(tasks, Sent)
  {
    InitialInv(capacity, tasks);
    RunKeepsInv(capacity, tasks, Initial(tasks), steps, t);
    ReturnedIsQuiet(capacity, tasks, t);
    GatherPointwise(t.workers, ClientSent, tasks, ClientMessages);
    GatherPointwise(t.workers, GroupSent, tasks, Sent);
  }
}
