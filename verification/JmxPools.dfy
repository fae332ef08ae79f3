/**
 * The worker pools of the core collection and the main goroutine as a step machine. Each pool has a feeder that hands
 * hosts to its workers over an unbuffered channel and then closes it. Collecting a host over JMX takes one permit of a
 * semaphore shared by all pools and by the main goroutine's own connections. Which goroutine runs next is the
 * scheduler's choice; a fatal connection error exits the process from any worker.
 */
module JmxPools {
  import opened Sums

  // ---------------------------------------------------------------- configuration

  /** What happens to a host: no connection needed, open fails, collected and closed, or the process exits mid-query. */
  datatype Outcome = NoConnection | OpenFails | Collected | Exits

  datatype Host = Host(pool: nat, name: string, outcome: Outcome)

  /** What the main goroutine does, one after the other, before it waits for the workers. */
  datatype Op = StartWorker(w: nat) | StartFeeder(p: nat) | Connect(host: Host)

  /** `limit` may be any integer; `pools[p]` lists the hosts of pool p; `poolOf[w]` is the pool of worker w. */
  datatype Config = Config(limit: int, pools: seq<seq<Host>>, poolOf: seq<nat>, script: seq<Op>)

  predicate OnceEach(script: seq<Op>) {
    forall i, j :: 0 <= i < j < |script| && !script[i].Connect? ==> script[i] != script[j]
  }

  /**
   * The start-up script is sensible: ids exist, nothing is started twice, started workers and listed hosts get a
   * feeder.
   */
  ghost predicate WellFormed(cfg: Config) {
    && (forall w :: 0 <= w < |cfg.poolOf| ==> cfg.poolOf[w] < |cfg.pools|)
    && (forall p, k :: 0 <= p < |cfg.pools| && 0 <= k < |cfg.pools[p]| ==> cfg.pools[p][k].pool == p)
    && (forall op :: op in cfg.script
          ==> (op.StartWorker? ==> op.w < |cfg.poolOf|) && (op.StartFeeder? ==> op.p < |cfg.pools|))
    && OnceEach(cfg.script)
    && (forall w :: 0 <= w < |cfg.poolOf| && StartWorker(w) in cfg.script ==> StartFeeder(cfg.poolOf[w]) in cfg.script)
    && (forall p :: 0 <= p < |cfg.pools| && cfg.pools[p] != [] ==>
          exists w :: 0 <= w < |cfg.poolOf| && cfg.poolOf[w] == p && StartWorker(w) in cfg.script)
  }

  // ---------------------------------------------------------------- states

  /** The life of one permit: waiting for it, opening with it, connected, giving it back. */
  datatype Session = Acquiring | Opening | Connected | Releasing

  datatype WorkerPhase = Idle | Receiving | Got(host: Host) | Using(session: Session, host: Host) | SigningOff | Ended

  datatype Worker = Worker(pool: nat, phase: WorkerPhase)

  datatype FeederPhase = Dormant | Feeding | Closed

  datatype Feeder = Feeder(hosts: seq<Host>, phase: FeederPhase)

  datatype MainPhase = Running | MainUsing(session: Session, host: Host) | Returned

  /**
   * `acquired` and `released` log semaphore calls, `handled` the hosts done, `connects` the main goroutine's own
   * sessions.
   */
  datatype State = State(
    main: MainPhase,
    pc: nat,
    feeders: seq<Feeder>,
    workers: seq<Worker>,
    free: int,
    waitGroup: int,
    exited: bool,
    acquired: int,
    released: int,
    handled: seq<Host>,
    connects: int)

  function Initial(cfg: Config): State {
    State(Running, 0,
          seq(|cfg.pools|, p requires 0 <= p < |cfg.pools| => Feeder(cfg.pools[p], Dormant)),
          seq(|cfg.poolOf|, w requires 0 <= w < |cfg.poolOf| => Worker(cfg.poolOf[w], Idle)),
          cfg.limit, 0, false, 0, 0, [], 0)
  }

  // ---------------------------------------------------------------- steps

  datatype Step = MainStep | FeederStep(p: nat) | HandOver(w: nat) | WorkerStep(w: nat)

  predicate SessionEnabled(session: Session, free: int) {
    session == Acquiring ==> free > 0
  }

  predicate WorkerEnabled(s: State, w: Worker) {
    match w.phase
    case Idle => false
    case Receiving => w.pool < |s.feeders| && s.feeders[w.pool].phase == Closed
    case Got(_) => true
    case Using(session, _) => SessionEnabled(session, s.free)
    case SigningOff => true
    case Ended => false
  }

  predicate Enabled(cfg: Config, s: State, step: Step) {
    && !s.exited
    && (match step
        case MainStep =>
          (match s.main
           case Running =>
             if s.pc < |cfg.script| then
               var op := cfg.script[s.pc];
               (op.StartWorker? ==> op.w < |s.workers|) && (op.StartFeeder? ==> op.p < |s.feeders|)
             else s.waitGroup == 0
           case MainUsing(session, _) => SessionEnabled(session, s.free)
           case Returned => false)
        case FeederStep(p) => p < |s.feeders| && s.feeders[p].phase == Feeding && s.feeders[p].hosts == []
        case HandOver(w) =>
          && w < |s.workers| && s.workers[w].phase == Receiving && s.workers[w].pool < |s.feeders|
          && s.feeders[s.workers[w].pool].phase == Feeding && s.feeders[s.workers[w].pool].hosts != []
        case WorkerStep(w) => w < |s.workers| && WorkerEnabled(s, s.workers[w]))
  }

  /** Steps at which Go would panic: releasing a permit that nobody holds, negative wait group. */
  predicate Panics(cfg: Config, s: State, step: Step) {
    match step
    case MainStep => s.main.MainUsing? && s.main.session == Releasing && s.free >= cfg.limit
    case WorkerStep(w) =>
      && w < |s.workers|
      && ((s.workers[w].phase.Using? && s.workers[w].phase.session == Releasing && s.free >= cfg.limit)
          || (s.workers[w].phase == SigningOff && s.waitGroup <= 0))
    case _ => false
  }

  /** Opening may fail, which gives the permit back at once; closing the client comes before giving it back. */
  function NextSession(session: Session, host: Host): Session {
    match session
    case Acquiring => Opening
    case Opening => if host.outcome == OpenFails then Releasing else Connected
    case Connected => Releasing
    case Releasing => Releasing
  }

  function Acquires(session: Session): int {
    if session == Acquiring then 1 else 0
  }

  function Releases(session: Session): int {
    if session == Releasing then 1 else 0
  }

  /** The process exits when a connected host's query reports a connection error. */
  predicate ExitsNow(session: Session, host: Host) {
    session == Connected && host.outcome == Exits
  }

  function WithPermit(s: State, session: Session): State {
    s.(free := s.free - Acquires(session) + Releases(session),
       acquired := s.acquired + Acquires(session),
       released := s.released + Releases(session))
  }

  function MovedWorker(s: State, w: Worker): Worker
    requires WorkerEnabled(s, w)
  {
    match w.phase
    case Receiving => w.(phase := SigningOff)
    case Got(host) => w.(phase := if host.outcome == NoConnection then Receiving else Using(Acquiring, host))
    case Using(session, host) => w.(phase := if session == Releasing then Receiving
                                    else Using(NextSession(session, host), host))
    case SigningOff => w.(phase := Ended)
    case _ => w
  }

  function HostOf(w: Worker): seq<Host> {
    match w.phase
    case Got(host) => [host]
    case Using(_, host) => [host]
    case _ => []
  }

  /** The host that the worker has finished with in this step. */
  function DoneWith(s: State, w: Worker): seq<Host>
    requires WorkerEnabled(s, w)
  {
    if MovedWorker(s, w).phase == Receiving then HostOf(w) else []
  }

  function ApplyWorker(s: State, i: nat): State
    requires i < |s.workers| && WorkerEnabled(s, s.workers[i])
  {
    var w := s.workers[i];
    if w.phase.Using? && ExitsNow(w.phase.session, w.phase.host) then s.(exited := true)
    else
      var t := if w.phase.Using? then WithPermit(s, w.phase.session) else s;
      t.(workers := s.workers[i := MovedWorker(s, w)],
         handled := s.handled + DoneWith(s, w),
         waitGroup := if w.phase == SigningOff then s.waitGroup - 1 else s.waitGroup)
  }

  function ApplyOp(s: State, op: Op): State
    requires (op.StartWorker? ==> op.w < |s.workers|) && (op.StartFeeder? ==> op.p < |s.feeders|)
  {
    match op
    case StartWorker(w) =>
      s.(pc := s.pc + 1, workers := s.workers[w := s.workers[w].(phase := Receiving)], waitGroup := s.waitGroup + 1)
    case StartFeeder(p) => s.(pc := s.pc + 1, feeders := s.feeders[p := s.feeders[p].(phase := Feeding)])
    case Connect(host) => s.(pc := s.pc + 1, main := MainUsing(Acquiring, host))
  }

  function ApplySession(s: State): State
    requires s.main.MainUsing?
  {
    var session, host := s.main.session, s.main.host;
    if ExitsNow(session, host) then s.(exited := true)
    else
      var t := WithPermit(s, session);
      if session == Releasing then t.(main := Running, connects := s.connects + 1)
      else t.(main := MainUsing(NextSession(session, host), host))
  }

  function ApplyMain(cfg: Config, s: State): State
    requires Enabled(cfg, s, MainStep)
  {
    if s.main.MainUsing? then ApplySession(s)
    else if s.pc < |cfg.script| then ApplyOp(s, cfg.script[s.pc])
    else s.(main := Returned)
  }

  function ApplyHandOver(s: State, i: nat): State
    requires i < |s.workers| && s.workers[i].pool < |s.feeders| && s.feeders[s.workers[i].pool].hosts != []
  {
    var w := s.workers[i];
    var f := s.feeders[w.pool];
    s.(workers := s.workers[i := w.(phase := Got(f.hosts[0]))],
       feeders := s.feeders[w.pool := f.(hosts := f.hosts[1..])])
  }

  function Apply(cfg: Config, s: State, step: Step): State
    requires Enabled(cfg, s, step)
  {
    match step
    case MainStep => ApplyMain(cfg, s)
    case FeederStep(p) => s.(feeders := s.feeders[p := s.feeders[p].(phase := Closed)])
    case HandOver(w) => ApplyHandOver(s, w)
    case WorkerStep(w) => ApplyWorker(s, w)
  }

  /** `steps` is a possible schedule leading from `s` to `t`. */
  ghost predicate Leads(cfg: Config, s: State, steps: seq<Step>, t: State)
    decreases |steps|
  {
    if steps == [] then s == t
    else Enabled(cfg, s, steps[0]) && Leads(cfg, Apply(cfg, s, steps[0]), steps[1..], t)
  }

  // ---------------------------------------------------------------- permits

  predicate HoldsPermit(session: Session) {
    session != Acquiring
  }

  function Held(w: Worker): int {
    if w.phase.Using? && HoldsPermit(w.phase.session) then 1 else 0
  }

  function Open(w: Worker): int {
    if w.phase.Using? && w.phase.session == Connected then 1 else 0
  }

  function MainHeld(s: State): int {
    if s.main.MainUsing? && HoldsPermit(s.main.session) then 1 else 0
  }

  function MainOpen(s: State): int {
    if s.main.MainUsing? && s.main.session == Connected then 1 else 0
  }

  /** The hosts that need a connection count one permit each. */
  function Permit(host: Host): int {
    if host.outcome == NoConnection then 0 else 1
  }

  ghost predicate Permits(cfg: Config, s: State) {
    && s.free + Sum(s.workers, Held) + MainHeld(s) == cfg.limit
    && s.free >= (if cfg.limit < 0 then cfg.limit else 0)
    && s.acquired - s.released == Sum(s.workers, Held) + MainHeld(s)
    && s.released == Sum(s.handled, Permit) + s.connects
    && (forall i :: 0 <= i < |s.workers| && s.workers[i].phase.Using?
          ==> s.workers[i].phase.host.outcome != NoConnection)
  }

  /** A worker's step moves one permit at most, and only hosts that need a connection come to use one. */
  lemma HeldMoves(s: State, w: Worker)
    requires WorkerEnabled(s, w)
    ensures Held(MovedWorker(s, w))
         == Held(w) + if w.phase.Using? then Acquires(w.phase.session) - Releases(w.phase.session) else 0
    ensures MovedWorker(s, w).phase.Using? && !w.phase.Using?
        ==> MovedWorker(s, w).phase.host.outcome != NoConnection
    ensures MovedWorker(s, w).phase.Using? && w.phase.Using? ==> MovedWorker(s, w).phase.host == w.phase.host
  {
  }

  lemma WorkerPermits(cfg: Config, s: State, i: nat)
    requires Permits(cfg, s) && Enabled(cfg, s, WorkerStep(i))
    ensures Permits(cfg, ApplyWorker(s, i))
  {
    var w := s.workers[i];
    SumUpdate(s.workers, i, MovedWorker(s, w), Held);
    HeldMoves(s, w);
    HandledPermits(s, w);
    hide Sum, DoneWith, MovedWorker, Held, Permit;
  }

  /** What a worker is done with has had as many permits as the step gives back. */
  lemma HandledPermits(s: State, w: Worker)
    requires WorkerEnabled(s, w)
    requires w.phase.Using? ==> w.phase.host.outcome != NoConnection
    ensures Sum(s.handled + DoneWith(s, w), Permit)
         == Sum(s.handled, Permit) + if w.phase.Using? then Releases(w.phase.session) else 0
  {
    SumConcat(s.handled, DoneWith(s, w), Permit);
    if DoneWith(s, w) != [] {
      SumSingle(HostOf(w)[0], Permit);
    }
  }

  /** A worker about to be started is not running yet. */
  predicate StartsIdle(cfg: Config, s: State) {
    (s.pc < |cfg.script| && cfg.script[s.pc].StartWorker? && cfg.script[s.pc].w < |s.workers|)
    ==> s.workers[cfg.script[s.pc].w].phase == Idle
  }

  lemma MainPermits(cfg: Config, s: State)
    requires Permits(cfg, s) && Enabled(cfg, s, MainStep)
    requires StartsIdle(cfg, s)
    ensures Permits(cfg, ApplyMain(cfg, s))
  {
    if s.main == Running && s.pc < |cfg.script| && cfg.script[s.pc].StartWorker? {
      var w := cfg.script[s.pc].w;
      SumUpdate(s.workers, w, s.workers[w].(phase := Receiving), Held);
    }
  }

  lemma HandOverPermits(cfg: Config, s: State, i: nat)
    requires Permits(cfg, s) && Enabled(cfg, s, HandOver(i))
    ensures Permits(cfg, ApplyHandOver(s, i))
  {
    SumUpdate(s.workers, i, ApplyHandOver(s, i).workers[i], Held);
  }

  // ---------------------------------------------------------------- hosts

  function Unfed(f: Feeder): multiset<Host> {
    multiset(f.hosts)
  }

  function HeldHosts(w: Worker): multiset<Host> {
    multiset(HostOf(w))
  }

  /** Every host not yet handed over, with a worker, or handled. */
  ghost function Hosts(s: State): multiset<Host> {
    Gather(s.feeders, Unfed) + Gather(s.workers, HeldHosts) + multiset(s.handled)
  }

  lemma WorkerMoveHosts(s: State, w: Worker)
    requires WorkerEnabled(s, w)
    ensures HeldHosts(w) == HeldHosts(MovedWorker(s, w)) + multiset(DoneWith(s, w))
  {
  }

  lemma WorkerHosts(cfg: Config, s: State, i: nat)
    requires Enabled(cfg, s, WorkerStep(i))
    ensures Hosts(ApplyWorker(s, i)) == Hosts(s)
  {
    var w := s.workers[i];
    if !(w.phase.Using? && ExitsNow(w.phase.session, w.phase.host)) {
      var t := ApplyWorker(s, i);
      assert t.feeders == s.feeders && t.workers == s.workers[i := MovedWorker(s, w)];
      assert multiset(t.handled) == multiset(s.handled) + multiset(DoneWith(s, w));
      WorkerMoveHosts(s, w);
      hide Gather, MovedWorker, HeldHosts, DoneWith, ApplyWorker, WorkerEnabled, Enabled;
      GatherLoss(s.workers, i, MovedWorker(s, w), HeldHosts, multiset(DoneWith(s, w)));
    }
  }

  lemma MainHosts(cfg: Config, s: State)
    requires Enabled(cfg, s, MainStep)
    requires StartsIdle(cfg, s)
    ensures Hosts(ApplyMain(cfg, s)) == Hosts(s)
  {
    hide Gather;
    if s.main == Running && s.pc < |cfg.script| {
      match cfg.script[s.pc]
      case StartWorker(w) =>
        GatherGain(s.workers, w, s.workers[w].(phase := Receiving), HeldHosts, multiset{});
      case StartFeeder(p) =>
        GatherGain(s.feeders, p, s.feeders[p].(phase := Feeding), Unfed, multiset{});
      case Connect(_) =>
    }
  }

  lemma HandOverHosts(cfg: Config, s: State, i: nat)
    requires Enabled(cfg, s, HandOver(i))
    ensures Hosts(ApplyHandOver(s, i)) == Hosts(s)
  {
    hide Gather;
    var w := s.workers[i];
    var f := s.feeders[w.pool];
    var moved := multiset{f.hosts[0]};
    assert f.hosts == [f.hosts[0]] + f.hosts[1..];
    GatherLoss(s.feeders, w.pool, f.(hosts := f.hosts[1..]), Unfed, moved);
    GatherGain(s.workers, i, w.(phase := Got(f.hosts[0])), HeldHosts, moved);
  }

  lemma CloseHosts(cfg: Config, s: State, p: nat)
    requires Enabled(cfg, s, FeederStep(p))
    ensures Hosts(Apply(cfg, s, FeederStep(p))) == Hosts(s)
  {
    hide Gather;
    GatherGain(s.feeders, p, s.feeders[p].(phase := Closed), Unfed, multiset{});
  }

  // ---------------------------------------------------------------- control

  function Counted(w: Worker): int {
    if w.phase == Idle || w.phase == Ended then 0 else 1
  }

  /**
   * A worker has been started exactly when the script is past its start; it leaves only after its channel is closed.
   */
  ghost predicate WorkerControl(cfg: Config, s: State, i: nat)
    requires i < |s.workers| && i < |cfg.poolOf| && s.pc <= |cfg.script|
  {
    var w := s.workers[i];
    && w.pool == cfg.poolOf[i] && w.pool < |s.feeders|
    && (w.phase == Idle <==> StartWorker(i) !in cfg.script[..s.pc])
    && (w.phase == SigningOff || w.phase == Ended ==> s.feeders[w.pool].phase == Closed)
    && (forall h :: h in HostOf(w) ==> h.pool == w.pool)
  }

  ghost predicate FeederControl(cfg: Config, s: State, p: nat)
    requires p < |s.feeders| && s.pc <= |cfg.script|
  {
    var f := s.feeders[p];
    && (f.phase == Dormant <==> StartFeeder(p) !in cfg.script[..s.pc])
    && (f.phase == Closed ==> f.hosts == [])
    && (forall h :: h in f.hosts ==> h.pool == p)
  }

  ghost predicate Control(cfg: Config, s: State) {
    && s.pc <= |cfg.script| && |s.workers| == |cfg.poolOf| && |s.feeders| == |cfg.pools|
    && (forall i :: 0 <= i < |s.workers| ==> WorkerControl(cfg, s, i))
    && (forall p :: 0 <= p < |s.feeders| ==> FeederControl(cfg, s, p))
    && s.waitGroup == Sum(s.workers, Counted)
    && (s.main == Returned ==> s.pc == |cfg.script| && s.waitGroup == 0)
  }

  ghost predicate Inv(cfg: Config, s: State) {
    && Permits(cfg, s)
    && Hosts(s) == Hosts(Initial(cfg))
    && Control(cfg, s)
  }

  lemma InitialInv(cfg: Config)
    requires WellFormed(cfg)
    ensures Inv(cfg, Initial(cfg))
  {
    var s := Initial(cfg);
    assert cfg.script[..0] == [];
    SumUniform(s.workers, Held, 0);
    SumUniform(s.workers, Counted, 0);
    hide Hosts;
    forall p | 0 <= p < |s.feeders| ensures FeederControl(cfg, s, p) {
      forall h | h in s.feeders[p].hosts ensures h.pool == p {
        var k :| 0 <= k < |cfg.pools[p]| && cfg.pools[p][k] == h;
      }
    }
  }

  lemma NextOp(cfg: Config, pc: nat, op: Op)
    requires OnceEach(cfg.script) && pc < |cfg.script|
    ensures op in cfg.script[..pc + 1] <==> op in cfg.script[..pc] || op == cfg.script[pc]
    ensures !cfg.script[pc].Connect? ==> cfg.script[pc] !in cfg.script[..pc]
  {
    assert cfg.script[..pc + 1] == cfg.script[..pc] + [cfg.script[pc]];
  }

  lemma OpControl(cfg: Config, s: State)
    requires WellFormed(cfg) && Control(cfg, s) && s.main == Running && s.pc < |cfg.script|
    requires Enabled(cfg, s, MainStep)
    ensures Control(cfg, ApplyOp(s, cfg.script[s.pc]))
  {
    var op := cfg.script[s.pc];
    var t := ApplyOp(s, op);
    NextOp(cfg, s.pc, op);
    if op.StartWorker? {
      assert WorkerControl(cfg, s, op.w);
      SumUpdate(s.workers, op.w, t.workers[op.w], Counted);
    } else if op.StartFeeder? {
      assert FeederControl(cfg, s, op.p);
    }
    hide Sum;
    forall i | 0 <= i < |t.workers| ensures WorkerControl(cfg, t, i) {
      assert WorkerControl(cfg, s, i);
      NextOp(cfg, s.pc, StartWorker(i));
    }
    forall p | 0 <= p < |t.feeders| ensures FeederControl(cfg, t, p) {
      assert FeederControl(cfg, s, p);
      NextOp(cfg, s.pc, StartFeeder(p));
    }
  }

  lemma MainControl(cfg: Config, s: State)
    requires WellFormed(cfg) && Control(cfg, s) && Enabled(cfg, s, MainStep)
    ensures Control(cfg, ApplyMain(cfg, s))
  {
    var t := ApplyMain(cfg, s);
    if s.main == Running && s.pc < |cfg.script| {
      OpControl(cfg, s);
    } else {
      assert t.workers == s.workers && t.feeders == s.feeders && t.pc == s.pc && t.waitGroup == s.waitGroup;
      hide Sum;
      forall i | 0 <= i < |t.workers| ensures WorkerControl(cfg, t, i) {
        assert WorkerControl(cfg, s, i);
      }
      forall p | 0 <= p < |t.feeders| ensures FeederControl(cfg, t, p) {
        assert FeederControl(cfg, s, p);
      }
    }
  }

  lemma WorkerKeepsControl(cfg: Config, s: State, i: nat)
    requires Control(cfg, s) && Enabled(cfg, s, WorkerStep(i))
    ensures Control(cfg, ApplyWorker(s, i))
  {
    var t := ApplyWorker(s, i);
    SumUpdate(s.workers, i, MovedWorker(s, s.workers[i]), Counted);
    SumBoundsElement(s.workers, i, Counted);
    hide Sum;
    forall k | 0 <= k < |t.workers| ensures WorkerControl(cfg, t, k) {
      assert WorkerControl(cfg, s, k);
    }
    forall p | 0 <= p < |t.feeders| ensures FeederControl(cfg, t, p) {
      assert FeederControl(cfg, s, p);
    }
  }

  lemma HandOverControl(cfg: Config, s: State, i: nat)
    requires Control(cfg, s) && Enabled(cfg, s, HandOver(i))
    ensures Control(cfg, ApplyHandOver(s, i))
  {
    var t := ApplyHandOver(s, i);
    SumUpdate(s.workers, i, t.workers[i], Counted);
    hide Sum;
    assert FeederControl(cfg, s, s.workers[i].pool);
    forall k | 0 <= k < |t.workers| ensures WorkerControl(cfg, t, k) {
      assert WorkerControl(cfg, s, k);
    }
    forall p | 0 <= p < |t.feeders| ensures FeederControl(cfg, t, p) {
      assert FeederControl(cfg, s, p);
    }
  }

  lemma CloseControl(cfg: Config, s: State, p: nat)
    requires Control(cfg, s) && Enabled(cfg, s, FeederStep(p))
    ensures Control(cfg, Apply(cfg, s, FeederStep(p)))
  {
    hide Sum;
    var t := Apply(cfg, s, FeederStep(p));
    forall k | 0 <= k < |t.workers| ensures WorkerControl(cfg, t, k) {
      assert WorkerControl(cfg, s, k);
    }
    forall q | 0 <= q < |t.feeders| ensures FeederControl(cfg, t, q) {
      assert FeederControl(cfg, s, q);
    }
  }

  lemma NextStartsIdle(cfg: Config, s: State)
    requires WellFormed(cfg) && Control(cfg, s)
    ensures StartsIdle(cfg, s)
  {
    if s.pc < |cfg.script| && cfg.script[s.pc].StartWorker? && cfg.script[s.pc].w < |s.workers| {
      NextOp(cfg, s.pc, cfg.script[s.pc]);
      assert WorkerControl(cfg, s, cfg.script[s.pc].w);
    }
  }

  lemma ClosePermits(cfg: Config, s: State, p: nat)
    requires Permits(cfg, s) && Enabled(cfg, s, FeederStep(p))
    ensures Permits(cfg, Apply(cfg, s, FeederStep(p)))
  {
  }

  lemma StepKeepsInv(cfg: Config, s: State, step: Step)
    requires WellFormed(cfg) && Inv(cfg, s) && Enabled(cfg, s, step)
    ensures Inv(cfg, Apply(cfg, s, step))
  {
    hide Permits, Hosts, Control, WellFormed, ApplyMain, ApplyWorker, ApplyHandOver, Initial;
    match step
    case MainStep =>
      NextStartsIdle(cfg, s);
      MainPermits(cfg, s);
      MainHosts(cfg, s);
      MainControl(cfg, s);
    case FeederStep(p) =>
      ClosePermits(cfg, s, p);
      CloseHosts(cfg, s, p);
      CloseControl(cfg, s, p);
    case HandOver(w) =>
      HandOverPermits(cfg, s, w);
      HandOverHosts(cfg, s, w);
      HandOverControl(cfg, s, w);
    case WorkerStep(w) =>
      WorkerPermits(cfg, s, w);
      WorkerHosts(cfg, s, w);
      WorkerKeepsControl(cfg, s, w);
  }

  lemma {:induction false} RunKeepsInv(cfg: Config, s: State, steps: seq<Step>, t: State)
    requires WellFormed(cfg) && Inv(cfg, s) && Leads(cfg, s, steps, t)
    ensures Inv(cfg, t)
    decreases |steps|
  {
    hide Inv, Enabled, Apply, WellFormed;
    if steps != [] {
      StepKeepsInv(cfg, s, steps[0]);
      RunKeepsInv(cfg, Apply(cfg, s, steps[0]), steps[1..], t);
    }
  }

  lemma ReachableInv(cfg: Config, steps: seq<Step>, t: State)
    requires WellFormed(cfg) && Leads(cfg, Initial(cfg), steps, t)
    ensures Inv(cfg, t)
  {
    InitialInv(cfg);
    RunKeepsInv(cfg, Initial(cfg), steps, t);
  }

  // ---------------------------------------------------------------- the connection limit

  lemma {:induction false} OpenBelowHeld(ws: seq<Worker>)
    ensures 0 <= Sum(ws, Open) <= Sum(ws, Held)
  {
    if ws != [] {
      OpenBelowHeld(ws[1..]);
    }
  }

  /**
   * In every reachable state the free and the held permits make up the limit, every acquire not yet matched by a
   * release is a held permit, and no more connections are open than the limit allows.
   */
  lemma LimitRespected(cfg: Config, steps: seq<Step>, t: State)
    requires WellFormed(cfg) && Leads(cfg, Initial(cfg), steps, t)
    ensures t.free + Sum(t.workers, Held) + MainHeld(t) == cfg.limit
    ensures t.acquired - t.released == Sum(t.workers, Held) + MainHeld(t)
    ensures 0 <= Sum(t.workers, Open) + MainOpen(t) <= if cfg.limit < 0 then 0 else cfg.limit
    ensures var connected := set i | (
              0 <= i < |t.workers| && t.workers[i].phase.Using? && t.workers[i].phase.session == Connected);
            var own := if t.main.MainUsing? && t.main.session == Connected then 1 else 0;
            |connected| + own <= if cfg.limit < 0 then 0 else cfg.limit
    ensures var holders := set i | (
              0 <= i < |t.workers| && t.workers[i].phase.Using? && t.workers[i].phase.session != Acquiring);
            var own := if t.main.MainUsing? && t.main.session != Acquiring then 1 else 0;
            |holders| + own == cfg.limit - t.free
  {
    ReachableInv(cfg, steps, t);
    OpenBelowHeld(t.workers);
    OpenAndHeld(t.workers);
  }

  lemma OpenAndHeld(ws: seq<Worker>)
    ensures var connected := set i | 0 <= i < |ws| && ws[i].phase.Using? && ws[i].phase.session == Connected;
            Sum(ws, Open) == |connected|
    ensures var holders := set i | 0 <= i < |ws| && ws[i].phase.Using? && ws[i].phase.session != Acquiring;
            Sum(ws, Held) == |holders|
  {
    var connected := set i | 0 <= i < |ws| && ws[i].phase.Using? && ws[i].phase.session == Connected;
    var holders := set i | 0 <= i < |ws| && ws[i].phase.Using? && ws[i].phase.session != Acquiring;
    SumOfFlags(ws, Open, connected);
    SumOfFlags(ws, Held, holders);
  }

  /** At every step each listed host is in exactly one place: not handed over, with one worker, or handled. */
  lemma EachHostOnce(cfg: Config, steps: seq<Step>, t: State)
    requires WellFormed(cfg) && Leads(cfg, Initial(cfg), steps, t)
    ensures Hosts(t) == Hosts(Initial(cfg))
  {
    ReachableInv(cfg, steps, t);
  }

  lemma InvForbidsPanic(cfg: Config, s: State, step: Step)
    requires Inv(cfg, s) && Enabled(cfg, s, step)
    ensures !Panics(cfg, s, step)
  {
    hide Hosts;
    OpenBelowHeld(s.workers);
    if step.WorkerStep? {
      OpenBelowHeldAt(s.workers, step.w);
    }
  }

  lemma OpenBelowHeldAt(ws: seq<Worker>, i: nat)
    requires i < |ws|
    ensures Held(ws[i]) <= Sum(ws, Held) && Counted(ws[i]) <= Sum(ws, Counted)
  {
    SumBoundsElement(ws, i, Held);
    SumBoundsElement(ws, i, Counted);
  }

  /** No schedule releases a permit that is not held or takes the wait group below zero. */
  lemma NeverPanics(cfg: Config, steps: seq<Step>, t: State, step: Step)
    requires WellFormed(cfg) && Leads(cfg, Initial(cfg), steps, t) && Enabled(cfg, t, step)
    ensures !Panics(cfg, t, step)
  {
    ReachableInv(cfg, steps, t);
    InvForbidsPanic(cfg, t, step);
  }

  // ---------------------------------------------------------------- progress

  /** A worker that has been started and has not ended can move, or its feeder can, unless it lacks a permit. */
  lemma PoolEnabled(cfg: Config, s: State, i: nat) returns (step: Step)
    requires WellFormed(cfg) && Inv(cfg, s) && !s.exited && s.pc == |cfg.script|
    requires i < |s.workers| && Counted(s.workers[i]) > 0
    requires s.free > 0 || !s.workers[i].phase.Using?
    ensures Enabled(cfg, s, step)
  {
    hide Hosts, Permits;
    assert WorkerControl(cfg, s, i);
    assert cfg.script[..s.pc] == cfg.script;
    var w := s.workers[i];
    var p := w.pool;
    assert FeederControl(cfg, s, p);
    if WorkerEnabled(s, w) {
      step := WorkerStep(i);
    } else if s.feeders[p].hosts == [] {
      step := FeederStep(p);
    } else {
      step := HandOver(i);
    }
  }

  lemma HolderEnabled(cfg: Config, s: State) returns (step: Step)
    requires Inv(cfg, s) && !s.exited && s.free == 0 && cfg.limit >= 1
    ensures Enabled(cfg, s, step)
  {
    hide Hosts, Control;
    if MainHeld(s) > 0 {
      step := MainStep;
    } else {
      var i := SumWitness(s.workers, Held);
      step := WorkerStep(i);
    }
  }

  lemma EnabledStep(cfg: Config, s: State) returns (step: Step)
    requires WellFormed(cfg) && cfg.limit >= 1
    requires Inv(cfg, s) && !s.exited && s.main != Returned
    ensures Enabled(cfg, s, step)
  {
    if s.free == 0 {
      step := HolderEnabled(cfg, s);
    } else if s.main != Running || s.pc < |cfg.script| || s.waitGroup == 0 {
      if s.main == Running && s.pc < |cfg.script| {
        assert cfg.script[s.pc] in cfg.script;
      }
      step := MainStep;
    } else {
      hide Hosts, Permits, WellFormed;
      SumNonNegative(s.workers, Counted);
      var i := SumWitness(s.workers, Counted);
      step := PoolEnabled(cfg, s, i);
    }
  }

  /**
   * With at least one permit the pools, feeders and main goroutine never get stuck before the main goroutine returns.
   */
  lemma NeverStuck(cfg: Config, steps: seq<Step>, t: State)
    requires WellFormed(cfg) && cfg.limit >= 1
    requires Leads(cfg, Initial(cfg), steps, t) && !t.exited && t.main != Returned
    ensures exists step :: Enabled(cfg, t, step)
  {
    ReachableInv(cfg, steps, t);
    var step := EnabledStep(cfg, t);
  }

  // ---------------------------------------------------------------- every run ends

  function SessionRank(session: Session): int {
    match session
    case Acquiring => 4
    case Opening => 3
    case Connected => 2
    case Releasing => 1
  }

  function WorkerRank(w: Worker): int {
    match w.phase
    case Idle => 2
    case Receiving => 2
    case Got(_) => 7
    case Using(session, _) => 2 + SessionRank(session)
    case SigningOff => 1
    case Ended => 0
  }

  function FeederRank(f: Feeder): int {
    6 * |f.hosts| + if f.phase == Closed then 0 else 1
  }

  function MainRank(cfg: Config, s: State): int {
    6 * (|cfg.script| - s.pc)
    + (match s.main case Running => 1 case MainUsing(session, _) => 1 + SessionRank(session) case Returned => 0)
  }

  ghost function Rank(cfg: Config, s: State): int {
    MainRank(cfg, s) + Sum(s.workers, WorkerRank) + Sum(s.feeders, FeederRank) + if s.exited then 0 else 1
  }

  lemma RankNonNegative(cfg: Config, s: State)
    requires s.pc <= |cfg.script|
    ensures Rank(cfg, s) >= 0
  {
    SumNonNegative(s.workers, WorkerRank);
    SumNonNegative(s.feeders, FeederRank);
  }

  lemma MainLowersRank(cfg: Config, s: State)
    requires StartsIdle(cfg, s) && Enabled(cfg, s, MainStep)
    requires forall p: nat :: p < |s.feeders| && s.pc < |cfg.script| && cfg.script[s.pc] == StartFeeder(p)
               ==> s.feeders[p].phase == Dormant
    ensures Rank(cfg, ApplyMain(cfg, s)) < Rank(cfg, s)
  {
    hide Sum;
    if s.main == Running && s.pc < |cfg.script| {
      match cfg.script[s.pc]
      case StartWorker(w) => SumUpdate(s.workers, w, s.workers[w].(phase := Receiving), WorkerRank);
      case StartFeeder(p) => SumUpdate(s.feeders, p, s.feeders[p].(phase := Feeding), FeederRank);
      case Connect(_) =>
    }
  }

  lemma PoolLowersRank(cfg: Config, s: State, step: Step)
    requires Enabled(cfg, s, step) && !step.MainStep?
    ensures Rank(cfg, Apply(cfg, s, step)) < Rank(cfg, s)
  {
    hide Sum;
    match step
    case FeederStep(p) => SumUpdate(s.feeders, p, s.feeders[p].(phase := Closed), FeederRank);
    case HandOver(i) =>
      var w := s.workers[i];
      var f := s.feeders[w.pool];
      SumUpdate(s.workers, i, w.(phase := Got(f.hosts[0])), WorkerRank);
      SumUpdate(s.feeders, w.pool, f.(hosts := f.hosts[1..]), FeederRank);
    case WorkerStep(i) => SumUpdate(s.workers, i, MovedWorker(s, s.workers[i]), WorkerRank);
  }

  /** Every step lowers the rank. */
  lemma StepLowersRank(cfg: Config, s: State, step: Step)
    requires WellFormed(cfg) && Inv(cfg, s) && Enabled(cfg, s, step)
    ensures Rank(cfg, Apply(cfg, s, step)) < Rank(cfg, s)
  {
    if step.MainStep? {
      NextStartsIdle(cfg, s);
      if s.pc < |cfg.script| && cfg.script[s.pc].StartFeeder? && cfg.script[s.pc].p < |s.feeders| {
        NextOp(cfg, s.pc, cfg.script[s.pc]);
        assert FeederControl(cfg, s, cfg.script[s.pc].p);
      }
      MainLowersRank(cfg, s);
    } else {
      PoolLowersRank(cfg, s, step);
    }
  }

  lemma {:induction false} RunLength(cfg: Config, s: State, steps: seq<Step>, t: State)
    requires WellFormed(cfg) && Inv(cfg, s) && Leads(cfg, s, steps, t)
    ensures |steps| <= Rank(cfg, s)
    decreases |steps|
  {
    RankNonNegative(cfg, s);
    hide Inv, Enabled, Apply, WellFormed, Rank;
    if steps != [] {
      StepKeepsInv(cfg, s, steps[0]);
      StepLowersRank(cfg, s, steps[0]);
      RunLength(cfg, Apply(cfg, s, steps[0]), steps[1..], t);
    }
  }

  /** Every run ends: the length of a schedule is bounded by the size of the configuration. */
  lemma EveryRunEnds(cfg: Config, steps: seq<Step>, t: State)
    requires WellFormed(cfg) && Leads(cfg, Initial(cfg), steps, t)
    ensures |steps| <= 6 * |cfg.script| + 2 * |cfg.poolOf| + Sum(Initial(cfg).feeders, FeederRank) + 2
  {
    InitialInv(cfg);
    RunLength(cfg, Initial(cfg), steps, t);
    SumUniform(Initial(cfg).workers, WorkerRank, 2);
  }

  // ---------------------------------------------------------------- what holds when the main goroutine returns

  lemma ReturnedPools(cfg: Config, s: State, p: nat)
    requires WellFormed(cfg) && Inv(cfg, s) && s.main == Returned && p < |s.feeders|
    requires cfg.pools[p] != []
    ensures s.feeders[p].hosts == []
  {
    hide Hosts, Permits;
    var w :| 0 <= w < |cfg.poolOf| && cfg.poolOf[w] == p && StartWorker(w) in cfg.script;
    assert cfg.script[..s.pc] == cfg.script;
    OpenBelowHeldAt(s.workers, w);
    assert WorkerControl(cfg, s, w);
    assert FeederControl(cfg, s, p);
  }

  lemma ReturnedWorkers(cfg: Config, s: State, i: nat)
    requires Inv(cfg, s) && s.main == Returned && i < |s.workers|
    ensures s.workers[i].phase == Idle || s.workers[i].phase == Ended
  {
    hide Hosts, Permits;
    OpenBelowHeldAt(s.workers, i);
  }

  /** An empty pool stays empty. */
  lemma {:induction false} EmptyPoolStays(cfg: Config, s: State, steps: seq<Step>, t: State, p: nat)
    requires Leads(cfg, s, steps, t) && p < |s.feeders| && s.feeders[p].hosts == []
    ensures p < |t.feeders| && t.feeders[p].hosts == []
    decreases |steps|
  {
    if steps != [] {
      var n := Apply(cfg, s, steps[0]);
      assert |n.feeders| == |s.feeders| && n.feeders[p].hosts == [];
      EmptyPoolStays(cfg, n, steps[1..], t, p);
    }
  }

  /**
   * When the main goroutine returns without the process having exited, every worker that was started has ended, every
   * listed host has been handled exactly once, all permits are back, and exactly one permit was acquired and released
   * for each host that needs a connection and for each connection of the main goroutine.
   */
  lemma AllHandledOnReturn(cfg: Config, steps: seq<Step>, t: State)
    requires WellFormed(cfg) && Leads(cfg, Initial(cfg), steps, t) && t.main == Returned
    ensures forall i :: 0 <= i < |t.workers| ==> t.workers[i].phase == Idle || t.workers[i].phase == Ended
    ensures multiset(t.handled) == Hosts(Initial(cfg))
    ensures t.free == cfg.limit
    ensures t.acquired == t.released == Sum(t.handled, Permit) + t.connects
  {
    ReachableInv(cfg, steps, t);
    hide Permits, Hosts, Control;
    forall i | 0 <= i < |t.workers| ensures t.workers[i].phase == Idle || t.workers[i].phase == Ended {
      ReturnedWorkers(cfg, t, i);
    }
    forall p | 0 <= p < |t.feeders| ensures t.feeders[p].hosts == [] {
      if cfg.pools[p] != [] {
        ReturnedPools(cfg, t, p);
      } else {
        EmptyPoolStays(cfg, Initial(cfg), steps, t, p);
      }
    }
    QuietIsHandled(t);
    QuietIsFree(cfg, t);
  }

  lemma QuietIsHandled(s: State)
    requires forall i :: 0 <= i < |s.workers| ==> s.workers[i].phase == Idle || s.workers[i].phase == Ended
    requires forall p :: 0 <= p < |s.feeders| ==> s.feeders[p].hosts == []
    ensures Hosts(s) == multiset(s.handled)
  {
    GatherEmpty(s.feeders, Unfed);
    GatherEmpty(s.workers, HeldHosts);
  }

  lemma QuietIsFree(cfg: Config, s: State)
    requires Permits(cfg, s) && s.main == Returned
    requires forall i :: 0 <= i < |s.workers| ==> s.workers[i].phase == Idle || s.workers[i].phase == Ended
    ensures s.free == cfg.limit && s.acquired == s.released == Sum(s.handled, Permit) + s.connects
  {
    SumUniform(s.workers, Held, 0);
  }

  /** The listed hosts of the configuration, as a multiset. */
  lemma InitialHosts(cfg: Config)
    ensures Hosts(Initial(cfg)) == Gather(cfg.pools, PoolHosts)
  {
    var s := Initial(cfg);
    GatherEmpty(s.workers, HeldHosts);
    GatherPointwise(s.feeders, Unfed, cfg.pools, PoolHosts);
  }

  function PoolHosts(hosts: seq<Host>): multiset<Host> {
    multiset(hosts)
  }
}
