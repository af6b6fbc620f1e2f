/**
  The desktop server supervisor (web/src-tauri/src/server_host.rs).

  The command thread (start, stop, status) and any number of monitor threads share a
  mutex-held process slot and an atomic desired generation. Every lock section, atomic
  load and atomic store is a step of its own, so a run is an arbitrary interleaving.
  The commands are serialised against each other, not against the monitors.
  Dropping the whole state performs the same stores, lock section and join as stop.
 */
module ServerHost {
  import opened Wrappers

  const SERVER_MAX_RESPAWN_ATTEMPTS: nat := 5

  /** A spawned server process: a fresh id and the generation it was launched for. */
  datatype Child = Child(id: nat, generation: nat)

  /** Where a monitor thread is in its nested loops. */
  datatype MonitorPc =
    | Top         // about to load the desired generation
    | Inspect     // about to lock the slot and poll the child
    | Clear       // about to lock the slot and drop the exited child
    | Budget      // inner loop: load desired, then check the respawn budget
    | GiveUp      // about to compare-exchange desired to zero
    | Backoff     // sleeping while polling desired
    | Spawn       // about to launch a replacement
    | Acquire     // holds a launched child, about to take the slot lock
    | Check       // holds the lock, about to load desired
    | Install     // holds the lock, saw its own generation, about to store the child
    | AwaitPort   // about to load desired while waiting for the port
    | ProbePort   // about to test the port
    | Unregister  // port never opened, about to lock the slot and drop the child

  /**
    `attempts` is the source's respawn_attempts. `unhealthy` is history: the children this
    monitor has launched since it began or since it last confirmed an open port.
   */
  datatype Monitor = Monitor(pc: MonitorPc, attempts: nat, local: Option<Child>, unhealthy: nat)

  /** Where desktop_server_start is. */
  datatype StartPc =
    | Prune | CheckSlot | CheckDesired(hasProcess: bool) | Take | Join(joining: Option<nat>)
    | Probe | NewGeneration | Publish(generation: nat) | Launch(generation: nat) | Abandon
    | Register(child: Child) | AwaitOpen(generation: nat) | FailStore | FailDrop
    | RunMonitor(generation: nat) | StoreHandle(generation: nat)

  /** Where desktop_server_stop is. */
  datatype StopPc = ClearDesired | DropProcess | TakeHandle | JoinMonitor(waiting: Option<nat>) | Stopped

  datatype CommandPc = Idle | Start(start: StartPc) | Stop(stop: StopPc) | Report

  datatype State = State(
    slot: Option<Child>,
    desired: nat,
    nextGeneration: nat,
    lock: Option<nat>,           // the monitor inside its multi-step lock section
    handle: Option<nat>,         // the stored monitor join handle
    monitors: map<nat, Monitor>, // live monitor threads, by generation
    command: CommandPc,
    alive: set<Child>,           // processes that are running
    spawned: seq<Child>)         // every process ever launched

  datatype Request = BeginStart | BeginStop | BeginStatus

  /** One scheduling choice; `ok` resolves whatever the environment decides in that step. */
  datatype Action =
    | CommandStep(request: Request, ok: bool)
    | MonitorStep(generation: nat, ok: bool)
    | ChildExits(child: Child)

  const INITIAL: State := State(None, 0, 0, None, None, map[], Idle, {}, [])

  /** Dropping a process kills it and waits for it. */
  function Killed(s: State, c: Option<Child>): set<Child> {
    if c.Some? then s.alive - {c.value} else s.alive
  }

  /** A lock section that empties the slot, killing whatever it held. */
  function DropSlot(s: State): State {
    s.(slot := None, alive := Killed(s, s.slot))
  }

  /** prune_exited: forget a registered process that has already ended. */
  function PruneExited(s: State): State {
    if s.slot.Some? && s.slot.value !in s.alive then s.(slot := None) else s
  }

  function Launched(s: State, generation: nat): Child {
    Child(|s.spawned|, generation)
  }

  function Go(s: State, pc: StartPc): State {
    s.(command := Start(pc))
  }

  /** The next step of start; a blocked step leaves the state alone. */
  function StartMove(s: State, pc: StartPc, ok: bool): State {
    match pc
    case Prune => if s.lock.Some? then s else Go(PruneExited(s), CheckSlot)
    case CheckSlot => if s.lock.Some? then s else Go(s, CheckDesired(s.slot.Some?))
    case CheckDesired(has) =>
      if has || s.desired != 0 then s.(command := Report) else Go(s, Take)
    case Take => Go(s, Join(s.handle)).(handle := None)
    case Join(h) => if h.Some? && h.value in s.monitors then s else Go(s, Probe)
    case Probe => if ok then Go(s, NewGeneration) else s.(command := Idle)
    case NewGeneration => Go(s, Publish(s.nextGeneration + 1)).(nextGeneration := s.nextGeneration + 1)
    case Publish(g) => Go(s, Launch(g)).(desired := g)
    case Launch(g) =>
      if !ok then Go(s, Abandon)
      else
        var c := Launched(s, g);
        s.(command := Start(Register(c)), alive := s.alive + {c}, spawned := s.spawned + [c])
    case Abandon => s.(command := Idle, desired := 0)
    case Register(c) =>
      if s.lock.Some? then s
      else s.(command := Start(AwaitOpen(c.generation)), slot := Some(c), alive := Killed(s, s.slot))
    case AwaitOpen(g) => Go(s, if ok then RunMonitor(g) else FailStore)
    case FailStore => Go(s, FailDrop).(desired := 0)
    case FailDrop => if s.lock.Some? then s else DropSlot(s).(command := Idle)
    case RunMonitor(g) => Go(s, StoreHandle(g)).(monitors := s.monitors[g := Monitor(Top, 0, None, 0)])
    case StoreHandle(g) => s.(command := Report, handle := Some(g))
  }

  /** The next step of stop. */
  function StopMove(s: State, pc: StopPc): State {
    match pc
    case ClearDesired => s.(command := Stop(DropProcess), desired := 0)
    case DropProcess => if s.lock.Some? then s else DropSlot(s).(command := Stop(TakeHandle))
    case TakeHandle => s.(command := Stop(JoinMonitor(s.handle)), handle := None)
    case JoinMonitor(h) =>
      if h.Some? && h.value in s.monitors then s else s.(command := Stop(Stopped))
    case Stopped => if s.lock.Some? then s else PruneExited(s).(command := Idle)
  }

  /** The command thread's next step. */
  function Command(s: State, request: Request, ok: bool): State {
    match s.command
    case Idle => s.(command := match request
                               case BeginStart => Start(Prune)
                               case BeginStop => Stop(ClearDesired)
                               case BeginStatus => Report)
    case Start(pc) => StartMove(s, pc, ok)
    case Stop(pc) => StopMove(s, pc)
    case Report => if s.lock.Some? then s else PruneExited(s).(command := Idle)
  }

  function Set(s: State, g: nat, m: Monitor): State {
    s.(monitors := s.monitors[g := m])
  }

  /** The monitor thread returns. */
  function Exit(s: State, g: nat): State {
    s.(monitors := s.monitors - {g})
  }

  function DropOwn(s: State, g: nat): State {
    if s.slot.Some? && s.slot.value.generation == g then DropSlot(s) else s
  }

  /** The supervising half of the monitor's loops: watch, and decide to launch a replacement. */
  function Watch(s: State, g: nat, m: Monitor, ok: bool): State {
    match m.pc
    case Top => if s.desired != g then Exit(s, g) else Set(s, g, m.(pc := Inspect))
    case Inspect =>
      if s.lock.Some? then s
      else if s.slot.None? then Set(s, g, m.(pc := Clear))
      else if s.slot.value.generation != g then Exit(s, g)
      else if s.slot.value in s.alive && ok then Set(s, g, m.(pc := Top))
      else Set(s, g, m.(pc := Clear)) // it exited, or polling it failed
    case Clear => if s.lock.Some? then s else Set(DropOwn(s, g), g, m.(pc := Budget))
    case Budget =>
      if s.desired != g then Exit(s, g)
      else if m.attempts >= SERVER_MAX_RESPAWN_ATTEMPTS then Set(s, g, m.(pc := GiveUp))
      else Set(s, g, m.(pc := Backoff, attempts := m.attempts + 1))
    case GiveUp => Exit(if s.desired == g then s.(desired := 0) else s, g)
    case Backoff =>
      if s.desired != g then Exit(s, g)
      else if ok then Set(s, g, m.(pc := Spawn))
      else s
    case _ => s
  }

  /** The launching half: spawn, check under the lock, install, wait for the port. */
  function Respawn(s: State, g: nat, m: Monitor, ok: bool): State {
    match m.pc
    case Spawn =>
      if !ok then Set(s, g, m.(pc := Budget))
      else
        var c := Launched(s, g);
        Set(s, g, m.(pc := Acquire, local := Some(c), unhealthy := m.unhealthy + 1))
          .(alive := s.alive + {c}, spawned := s.spawned + [c])
    case Acquire =>
      if s.lock.Some? then s else Set(s, g, m.(pc := Check)).(lock := Some(g))
    case Check =>
      if s.desired != g then Exit(s, g).(alive := Killed(s, m.local), lock := None)
      else Set(s, g, m.(pc := Install))
    case Install =>
      Set(s, g, m.(pc := AwaitPort, local := None))
        .(slot := m.local, alive := Killed(s, s.slot), lock := None)
    case AwaitPort =>
      Set(s, g, m.(pc := if s.desired == g && ok then ProbePort else Unregister))
    case ProbePort =>
      if ok then Set(s, g, m.(pc := Top, attempts := 0, unhealthy := 0))
      else Set(s, g, m.(pc := AwaitPort))
    case Unregister => if s.lock.Some? then s else Set(DropOwn(s, g), g, m.(pc := Budget))
    case _ => s
  }

  predicate Watching(pc: MonitorPc) {
    pc.Top? || pc.Inspect? || pc.Clear? || pc.Budget? || pc.GiveUp? || pc.Backoff?
  }

  /** The next step of the monitor thread for generation `g`. */
  function MonitorMove(s: State, g: nat, ok: bool): State
    requires g in s.monitors
  {
    var m := s.monitors[g];
    if Watching(m.pc) then Watch(s, g, m, ok) else Respawn(s, g, m, ok)
  }

  function Step(s: State, a: Action): State {
    match a
    case CommandStep(request, ok) => Command(s, request, ok)
    case MonitorStep(g, ok) => if g in s.monitors then MonitorMove(s, g, ok) else s
    case ChildExits(c) => s.(alive := s.alive - {c})
  }

  function Run(s: State, trace: seq<Action>): State
    decreases |trace|
  {
    if trace == [] then s else Run(Step(s, trace[0]), trace[1..])
  }

  // ---------------------------------------------------------------------------
  // The invariant

  /** The generation whose monitor may be running, given where the command thread is. */
  function MonitorOwner(s: State): Option<nat> {
    match s.command
    case Start(StoreHandle(g)) => Some(g)
    case Start(Join(h)) => h
    case Stop(JoinMonitor(h)) => h
    case _ => s.handle
  }

  /** The state from which start proceeds past its guard. */
  predicate Startable(s: State) {
    s.desired == 0 && s.slot.None? && s.monitors == map[]
  }

  /** No command is under way: either the stored monitor runs and is wanted, or all is stopped. */
  predicate Settled(s: State) {
    if s.handle.Some? && s.handle.value in s.monitors then s.desired == s.handle.value
    else Startable(s)
  }

  /** Start has published generation `g` and no monitor is running yet. */
  predicate Published(s: State, g: nat) {
    0 < s.desired == g == s.nextGeneration && s.monitors == map[] && s.handle.None?
  }

  /** What the position of start says about the shared state. */
  ghost predicate StartInv(s: State, pc: StartPc) {
    match pc
    case Prune | CheckSlot => Settled(s)
    case CheckDesired(_) => Settled(s)
    case Take => Startable(s)
    case Join(_) => Startable(s) && s.handle.None?
    case Probe | NewGeneration => Startable(s) && s.handle.None?
    case Publish(g) => Startable(s) && s.handle.None? && 0 < g == s.nextGeneration
    case Launch(g) => Published(s, g) && s.slot.None?
    case Abandon => s.slot.None? && s.monitors == map[] && s.handle.None?
    case Register(c) => Published(s, c.generation) && s.slot.None?
    case AwaitOpen(g) => Published(s, g) && SlotFrom(s, g)
    case RunMonitor(g) => Published(s, g) && SlotFrom(s, g)
    case FailStore => s.monitors == map[] && s.handle.None?
    case FailDrop => s.monitors == map[] && s.handle.None? && s.desired == 0
    case StoreHandle(g) =>
      s.handle.None? && 0 < g && (if g in s.monitors then s.desired == g else Startable(s))
  }

  /** What the position of stop says about the shared state. */
  ghost predicate StopInv(s: State, pc: StopPc) {
    match pc
    case ClearDesired => Settled(s)
    case DropProcess => s.desired == 0
    case TakeHandle => s.desired == 0 && s.slot.None? && NoInstall(s)
    case JoinMonitor(_) => s.desired == 0 && s.slot.None? && NoInstall(s) && s.handle.None?
    case Stopped => Startable(s) && s.handle.None?
  }

  ghost predicate CommandInv(s: State) {
    match s.command
    case Idle | Report => Settled(s)
    case Start(pc) => StartInv(s, pc)
    case Stop(pc) => StopInv(s, pc)
  }

  /** Whatever is registered was launched for generation `g`. */
  predicate SlotFrom(s: State, g: nat) {
    s.slot.Some? ==> s.slot.value.generation == g
  }

  /** No monitor has passed its check of the desired generation without storing yet. */
  predicate NoInstall(s: State) {
    forall g :: g in s.monitors ==> s.monitors[g].pc != Install
  }

  /** A monitor in these places knows the slot is empty. */
  predicate SlotEmptyAt(pc: MonitorPc) {
    pc.Budget? || pc.GiveUp? || pc.Backoff? || pc.Spawn? || pc.Acquire? || pc.Check? || pc.Install?
  }

  predicate HoldsLock(pc: MonitorPc) { pc.Check? || pc.Install? }

  predicate HoldsChild(pc: MonitorPc) { pc.Acquire? || HoldsLock(pc) }

  ghost predicate MonitorInv(s: State, g: nat)
    requires g in s.monitors
  {
    var m := s.monitors[g];
    && MonitorOwner(s) == Some(g)
    && 0 < g <= s.nextGeneration
    && (SlotEmptyAt(m.pc) ==> s.slot.None?)
    && (s.slot.Some? ==> s.slot.value.generation == g)
    && (HoldsLock(m.pc) <==> s.lock == Some(g))
    && (HoldsChild(m.pc) <==> m.local.Some?)
    && (m.local.Some? ==> m.local.value.generation == g)
    && m.unhealthy <= m.attempts <= SERVER_MAX_RESPAWN_ATTEMPTS
    && (m.pc.Backoff? || m.pc.Spawn? ==> m.unhealthy < m.attempts)
    && (m.pc.GiveUp? ==> m.attempts == SERVER_MAX_RESPAWN_ATTEMPTS)
    && (Watchful(m.pc) || m.pc.Clear? ==> m.attempts == 0)
  }

  /** It has confirmed its server and keeps an eye on it. */
  predicate Watchful(pc: MonitorPc) { pc.Top? || pc.Inspect? }

  /** Some thread or the slot is responsible for the process. */
  ghost predicate Owned(s: State, c: Child) {
    || s.slot == Some(c)
    || s.command == Start(Register(c))
    || (exists g :: g in s.monitors && s.monitors[g].local == Some(c))
  }

  ghost predicate Inv(s: State) {
    && CommandInv(s)
    && (forall g :: g in s.monitors ==> MonitorInv(s, g))
    && (forall c :: c in s.alive ==> Owned(s, c))
    && SharedInv(s)
  }

  ghost predicate SharedInv(s: State) {
    && (s.lock.Some? ==> s.lock.value in s.monitors)
    && s.desired <= s.nextGeneration
    && (s.handle.Some? ==> 0 < s.handle.value)
  }

  /** Every running monitor is the one the command thread accounts for, so there is at most one. */
  ghost predicate OnlyOwner(s: State) {
    forall g :: g in s.monitors ==> MonitorOwner(s) == Some(g)
  }

  lemma OnlyMonitor(s: State)
    requires Inv(s)
    ensures OnlyOwner(s)
  {
    forall g | g in s.monitors ensures MonitorOwner(s) == Some(g) { assert MonitorInv(s, g); }
  }

  lemma LastMonitor(s: State, g: nat)
    requires OnlyOwner(s) && g in s.monitors
    ensures Exit(s, g).monitors == map[]
    ensures MonitorOwner(s) == Some(g)
  {
  }

  lemma StartKeepsCommandInv(s: State, pc: StartPc, ok: bool)
    requires s.command == Start(pc) && StartInv(s, pc) && OnlyOwner(s)
    requires s.handle.Some? ==> 0 < s.handle.value
    ensures CommandInv(StartMove(s, pc, ok))
  {
    match pc
    case StoreHandle(g) => assert g !in s.monitors ==> s.monitors == map[];
    case _ =>
  }

  lemma StopKeepsCommandInv(s: State, pc: StopPc)
    requires s.command == Stop(pc) && StopInv(s, pc) && OnlyOwner(s)
    requires s.lock.None? ==> NoInstall(s)
    ensures CommandInv(StopMove(s, pc))
  {
    match pc
    case JoinMonitor(h) =>
      if h.None? || h.value !in s.monitors { assert s.monitors == map[]; }
    case _ =>
  }

  lemma StartKeepsMonitorInv(s: State, pc: StartPc, ok: bool, g: nat)
    requires s.command == Start(pc) && StartInv(s, pc) && SharedInv(s)
    requires g in StartMove(s, pc, ok).monitors && (g in s.monitors ==> MonitorInv(s, g))
    ensures MonitorInv(StartMove(s, pc, ok), g)
  {
    match pc
    case _ =>
  }

  lemma StopKeepsMonitorInv(s: State, pc: StopPc, g: nat)
    requires s.command == Stop(pc) && StopInv(s, pc)
    requires g in s.monitors && MonitorInv(s, g)
    ensures g in StopMove(s, pc).monitors && MonitorInv(StopMove(s, pc), g)
  {
  }

  lemma CommandKeepsMonitorInv(s: State, request: Request, ok: bool, g: nat)
    requires CommandInv(s) && SharedInv(s) && g in Command(s, request, ok).monitors
    requires g in s.monitors ==> MonitorInv(s, g)
    ensures MonitorInv(Command(s, request, ok), g)
  {
    match s.command
    case Start(pc) => StartKeepsMonitorInv(s, pc, ok, g);
    case Stop(pc) => StopKeepsMonitorInv(s, pc, g);
    case _ =>
  }

  /** Start and stop keep the monitors there are. */
  lemma StartKeepsMonitors(s: State, pc: StartPc, ok: bool)
    requires StartInv(s, pc)
    ensures forall g :: g in s.monitors ==>
              g in StartMove(s, pc, ok).monitors && StartMove(s, pc, ok).monitors[g] == s.monitors[g]
  {
    match pc
    case RunMonitor(_) => assert s.monitors == map[];
    case _ =>
  }

  lemma StartKeepsOwned(s: State, pc: StartPc, ok: bool, c: Child)
    requires s.command == Start(pc) && StartInv(s, pc) && c in StartMove(s, pc, ok).alive
    requires c in s.alive ==> Owned(s, c)
    ensures Owned(StartMove(s, pc, ok), c)
  {
    hide StartInv;
    StartKeepsMonitors(s, pc, ok);
    if g :| g in s.monitors && s.monitors[g].local == Some(c) {
      assert StartMove(s, pc, ok).monitors[g].local == Some(c);
    }
  }

  lemma StopKeepsOwned(s: State, pc: StopPc, c: Child)
    requires s.command == Stop(pc) && c in StopMove(s, pc).alive
    requires c in s.alive ==> Owned(s, c)
    ensures Owned(StopMove(s, pc), c)
  {
    if g :| g in s.monitors && s.monitors[g].local == Some(c) {
      assert StopMove(s, pc).monitors[g].local == Some(c);
    }
  }

  lemma CommandKeepsOwned(s: State, request: Request, ok: bool, c: Child)
    requires CommandInv(s) && c in Command(s, request, ok).alive
    requires c in s.alive ==> Owned(s, c)
    ensures Owned(Command(s, request, ok), c)
  {
    hide StartMove, StopMove, StartInv, StopInv;
    match s.command
    case Start(pc) => StartKeepsOwned(s, pc, ok, c);
    case Stop(pc) => StopKeepsOwned(s, pc, c);
    case _ => assert s.slot == Some(c) || exists g :: g in s.monitors && s.monitors[g].local == Some(c);
  }

  lemma StartBasics(s: State, pc: StartPc, ok: bool)
    requires StartInv(s, pc) && SharedInv(s)
    ensures SharedInv(StartMove(s, pc, ok))
  {
    StartKeepsMonitors(s, pc, ok);
  }

  lemma CommandBasics(s: State, request: Request, ok: bool)
    requires CommandInv(s) && SharedInv(s)
    ensures SharedInv(Command(s, request, ok))
  {
    hide StartMove, StartInv;
    if s.command.Start? { StartBasics(s, s.command.start, ok); }
  }

  lemma CommandKeepsInv(s: State, request: Request, ok: bool)
    requires Inv(s)
    ensures Inv(Command(s, request, ok))
  {
    var t := Command(s, request, ok);
    OnlyMonitor(s);
    match s.command {
      case Start(pc) => StartKeepsCommandInv(s, pc, ok);
      case Stop(pc) =>
        forall g | g in s.monitors && s.lock.None? ensures s.monitors[g].pc != Install { assert MonitorInv(s, g); }
        StopKeepsCommandInv(s, pc);
      case _ =>
    }
    forall g | g in t.monitors ensures MonitorInv(t, g) { CommandKeepsMonitorInv(s, request, ok, g); }
    forall c | c in t.alive ensures Owned(t, c) { CommandKeepsOwned(s, request, ok, c); }
    CommandBasics(s, request, ok);
  }

  /** What a monitor step may rely on. */
  ghost predicate Mine(s: State, g: nat) {
    && g in s.monitors && MonitorInv(s, g) && OnlyOwner(s) && SharedInv(s)
    && Exit(s, g).monitors == map[]
  }

  /** What every monitor step gives back. */
  ghost predicate Given(s: State, t: State, g: nat) {
    && (g in t.monitors ==> MonitorInv(t, g))
    && (forall h :: h in t.monitors ==> h == g)
    && SharedInv(t)
  }

  /** A monitor that stays where the command thread expects it is none of its business. */
  lemma StayingKeepsCommandInv(s: State, t: State)
    requires CommandInv(s) && t.monitors.Keys == s.monitors.Keys != {} && (NoInstall(s) ==> NoInstall(t))
    requires t.command == s.command && t.desired == s.desired && t.nextGeneration == s.nextGeneration
    requires t.handle == s.handle && (t.slot == s.slot || t.slot.None?)
    ensures CommandInv(t)
  {
    assert forall g :: g in t.monitors <==> g in s.monitors;
  }

  lemma UndesiredKeepsCommandInv(s: State, g: nat, t: State)
    requires Mine(s, g) && CommandInv(s) && s.desired != g
    requires t == Exit(s, g).(alive := t.alive, lock := t.lock)
    ensures CommandInv(t)
  {
  }

  lemma GiveUpKeepsCommandInv(s: State, g: nat, ok: bool)
    requires Mine(s, g) && CommandInv(s) && s.monitors[g].pc.GiveUp?
    ensures CommandInv(MonitorMove(s, g, ok))
  {
  }

  lemma WatchKeepsCommandInv(s: State, g: nat, ok: bool)
    requires Mine(s, g) && CommandInv(s) && Watching(s.monitors[g].pc)
    ensures CommandInv(MonitorMove(s, g, ok))
  {
    hide CommandInv;
    var pc := s.monitors[g].pc;
    if pc.GiveUp? {
      GiveUpKeepsCommandInv(s, g, ok);
    } else if (pc.Top? || pc.Budget? || pc.Backoff?) && s.desired != g {
      UndesiredKeepsCommandInv(s, g, MonitorMove(s, g, ok));
    } else {
      StayingKeepsCommandInv(s, MonitorMove(s, g, ok));
    }
  }

  /** From the check of the desired generation to the store, under the lock. */
  lemma InstallKeepsCommandInv(s: State, g: nat, ok: bool)
    requires Mine(s, g) && CommandInv(s) && HoldsLock(s.monitors[g].pc)
    ensures CommandInv(MonitorMove(s, g, ok))
  {
    if s.monitors[g].pc.Check? && s.desired != g { UndesiredKeepsCommandInv(s, g, MonitorMove(s, g, ok)); }
  }

  lemma RespawnKeepsCommandInv(s: State, g: nat, ok: bool)
    requires Mine(s, g) && CommandInv(s) && !Watching(s.monitors[g].pc)
    ensures CommandInv(MonitorMove(s, g, ok))
  {
    hide CommandInv;
    if HoldsLock(s.monitors[g].pc) {
      InstallKeepsCommandInv(s, g, ok);
    } else {
      StayingKeepsCommandInv(s, MonitorMove(s, g, ok));
    }
  }

  /** Up to the store of the replacement. */
  predicate BeforeInstall(pc: MonitorPc) { pc.Spawn? || pc.Acquire? || pc.Check? || pc.Install? }

  lemma WatchKeepsMonitorInv(s: State, g: nat, ok: bool)
    requires Mine(s, g) && Watching(s.monitors[g].pc)
    ensures Given(s, MonitorMove(s, g, ok), g)
  {
  }

  lemma InstallKeepsMonitorInv(s: State, g: nat, ok: bool)
    requires Mine(s, g) && BeforeInstall(s.monitors[g].pc)
    ensures Given(s, MonitorMove(s, g, ok), g)
  {
  }

  lemma AwaitKeepsMonitorInv(s: State, g: nat, ok: bool)
    requires Mine(s, g) && !Watching(s.monitors[g].pc) && !BeforeInstall(s.monitors[g].pc)
    ensures Given(s, MonitorMove(s, g, ok), g)
  {
  }

  lemma MonitorKeepsOwned(s: State, g: nat, ok: bool)
    requires Mine(s, g)
    requires forall c :: c in s.alive ==> Owned(s, c)
    ensures forall c :: c in MonitorMove(s, g, ok).alive ==> Owned(MonitorMove(s, g, ok), c)
  {
    var t := MonitorMove(s, g, ok);
    forall c | c in t.alive ensures Owned(t, c) {
      if g in t.monitors && t.monitors[g].local == Some(c) { assert Owned(t, c); }
    }
  }

  lemma MonitorRelies(s: State, g: nat)
    requires Inv(s) && g in s.monitors
    ensures Mine(s, g)
  {
    OnlyMonitor(s);
    LastMonitor(s, g);
  }

  lemma MonitorKeepsInv(s: State, g: nat, ok: bool)
    requires Inv(s) && g in s.monitors
    ensures Inv(MonitorMove(s, g, ok))
  {
    hide CommandInv, MonitorMove, Mine;
    MonitorRelies(s, g);
    MonitorKeepsOwned(s, g, ok);
    if Watching(s.monitors[g].pc) {
      WatchKeepsCommandInv(s, g, ok);
      WatchKeepsMonitorInv(s, g, ok);
    } else {
      RespawnKeepsCommandInv(s, g, ok);
      if BeforeInstall(s.monitors[g].pc) { InstallKeepsMonitorInv(s, g, ok); } else { AwaitKeepsMonitorInv(s, g, ok); }
    }
  }

  lemma StepKeepsInv(s: State, a: Action)
    requires Inv(s)
    ensures Inv(Step(s, a))
  {
    match a
    case CommandStep(request, ok) => CommandKeepsInv(s, request, ok);
    case MonitorStep(g, ok) => if g in s.monitors { MonitorKeepsInv(s, g, ok); }
    case ChildExits(_) =>
      var t := Step(s, a);
      forall g | g in t.monitors ensures MonitorInv(t, g) { assert MonitorInv(s, g); }
      forall c | c in t.alive ensures Owned(t, c) { assert Owned(s, c); }
  }

  lemma {:induction false} RunKeepsInv(s: State, trace: seq<Action>)
    requires Inv(s)
    ensures Inv(Run(s, trace))
    decreases |trace|
  {
    if trace != [] {
      StepKeepsInv(s, trace[0]);
      RunKeepsInv(Step(s, trace[0]), trace[1..]);
    }
  }

  // ---------------------------------------------------------------------------
  // Safety over every run

  /** In every interleaving at most one server process is alive, and at most one monitor runs. */
  lemma AtMostOneServer(trace: seq<Action>)
    ensures var s := Run(INITIAL, trace);
            && (forall c, d :: c in s.alive && d in s.alive ==> c == d)
            && (forall g, h :: g in s.monitors && h in s.monitors ==> g == h)
  {
    RunKeepsInv(INITIAL, trace);
    var s := Run(INITIAL, trace);
    OnlyMonitor(s);
    forall c, d | c in s.alive && d in s.alive ensures c == d {
      assert Owned(s, c) && Owned(s, d);
      assert forall g :: g in s.monitors ==> MonitorInv(s, g);
    }
  }

  lemma StoppedIsQuiet(s: State)
    requires Inv(s) && s.command.Idle? && s.monitors == map[]
    ensures Startable(s) && s.alive == {}
  {
    forall c | c in s.alive ensures Owned(s, c) {}
  }

  /**
    The supervisor never gets stuck: whenever no command is under way and no monitor runs, the
    slot is empty, no process is alive and start proceeds past its guard. This covers a monitor
    that gave up.
   */
  lemma StoppedMeansStartable(trace: seq<Action>)
    ensures var s := Run(INITIAL, trace);
            s.command.Idle? && s.monitors == map[] ==> Startable(s) && s.alive == {}
  {
    RunKeepsInv(INITIAL, trace);
    var s := Run(INITIAL, trace);
    if s.command.Idle? && s.monitors == map[] { StoppedIsQuiet(s); }
  }

  /** Nothing in `s` could still launch or register a process of generation `k` or older. */
  ghost predicate BeyondGeneration(s: State, k: nat) {
    && k <= s.nextGeneration
    && (s.slot.Some? ==> k < s.slot.value.generation)
    && (s.command.Start? ==> StartBeyond(s.command.start, k))
    && (forall g :: g in s.monitors ==> k < g && LocalBeyond(s.monitors[g], k))
  }

  ghost predicate LocalBeyond(m: Monitor, k: nat) {
    m.local.Some? ==> k < m.local.value.generation
  }

  ghost predicate StartBeyond(pc: StartPc, k: nat) {
    match pc
    case Publish(g) => k < g
    case Launch(g) => k < g
    case Register(c) => k < c.generation
    case AwaitOpen(g) => k < g
    case RunMonitor(g) => k < g
    case _ => true
  }

  /** Between `s` and `t` only processes newer than generation `k` were launched. */
  ghost predicate LaunchedBeyond(s: State, t: State, k: nat) {
    && |s.spawned| <= |t.spawned|
    && (forall i :: |s.spawned| <= i < |t.spawned| ==> k < t.spawned[i].generation)
  }

  lemma StartStaysBeyond(s: State, pc: StartPc, ok: bool, k: nat)
    requires BeyondGeneration(s, k) && s.command == Start(pc)
    ensures BeyondGeneration(StartMove(s, pc, ok), k)
    ensures LaunchedBeyond(s, StartMove(s, pc, ok), k)
  {
  }

  lemma StopStaysBeyond(s: State, pc: StopPc, k: nat)
    requires BeyondGeneration(s, k) && s.command == Stop(pc)
    ensures BeyondGeneration(StopMove(s, pc), k)
    ensures StopMove(s, pc).spawned == s.spawned
  {
  }

  /** What a step of monitor `g` can do: launch for `g`, and register or drop what it launched. */
  ghost predicate Supervises(s: State, t: State, g: nat)
    requires g in s.monitors
  {
    && t.command == s.command && t.nextGeneration == s.nextGeneration
    && (t.slot.None? || t.slot == s.slot || t.slot == s.monitors[g].local)
    && (t.spawned == s.spawned || t.spawned == s.spawned + [Launched(s, g)])
    && (forall h :: h in t.monitors ==> h in s.monitors)
    && (forall h :: h in t.monitors && h != g ==> t.monitors[h] == s.monitors[h])
    && (g in t.monitors ==> t.monitors[g].local in {None, s.monitors[g].local, Some(Launched(s, g))})
  }

  lemma WatchSupervises(s: State, g: nat, ok: bool)
    requires g in s.monitors
    ensures Supervises(s, Watch(s, g, s.monitors[g], ok), g)
  {
  }

  lemma RespawnSupervises(s: State, g: nat, ok: bool)
    requires g in s.monitors
    ensures Supervises(s, Respawn(s, g, s.monitors[g], ok), g)
  {
  }

  lemma MonitorSupervises(s: State, g: nat, ok: bool)
    requires g in s.monitors
    ensures Supervises(s, MonitorMove(s, g, ok), g)
  {
    hide Watch, Respawn, Supervises;
    WatchSupervises(s, g, ok);
    RespawnSupervises(s, g, ok);
  }

  lemma MonitorStaysBeyond(s: State, g: nat, ok: bool, k: nat)
    requires BeyondGeneration(s, k) && g in s.monitors
    ensures BeyondGeneration(MonitorMove(s, g, ok), k)
    ensures LaunchedBeyond(s, MonitorMove(s, g, ok), k)
  {
    hide MonitorMove;
    MonitorSupervises(s, g, ok);
  }

  lemma StepStaysBeyond(s: State, a: Action, k: nat)
    requires BeyondGeneration(s, k)
    ensures BeyondGeneration(Step(s, a), k)
    ensures LaunchedBeyond(s, Step(s, a), k)
  {
    hide StartMove, StopMove, MonitorMove;
    match a
    case CommandStep(_, ok) =>
      if s.command.Start? { StartStaysBeyond(s, s.command.start, ok, k); }
      if s.command.Stop? { StopStaysBeyond(s, s.command.stop, k); }
    case MonitorStep(g, ok) =>
      if g in s.monitors { MonitorStaysBeyond(s, g, ok, k); }
    case ChildExits(_) =>
  }

  lemma StepOnlyAppends(s: State, a: Action)
    ensures s.spawned <= Step(s, a).spawned
  {
    hide MonitorMove;
    if a.MonitorStep? && a.generation in s.monitors { MonitorSupervises(s, a.generation, a.ok); }
  }

  lemma {:induction false} RunStaysBeyond(s: State, trace: seq<Action>, k: nat)
    requires BeyondGeneration(s, k)
    ensures BeyondGeneration(Run(s, trace), k)
    ensures LaunchedBeyond(s, Run(s, trace), k)
    ensures s.spawned <= Run(s, trace).spawned
    decreases |trace|
  {
    if trace != [] {
      var n := Step(s, trace[0]);
      StepStaysBeyond(s, trace[0], k);
      StepOnlyAppends(s, trace[0]);
      RunStaysBeyond(n, trace[1..], k);
      var t := Run(n, trace[1..]);
      forall i | |s.spawned| <= i < |t.spawned| ensures k < t.spawned[i].generation {
        if i < |n.spawned| { assert t.spawned[i] == n.spawned[i]; }
      }
    }
  }

  /**
    Stop is final. When stop has joined the monitor, the slot is empty, no process is alive and
    no monitor runs; whatever happens afterwards, every process launched or registered and every
    monitor belongs to a generation that only a later start creates.
   */
  lemma StopIsFinal(before: seq<Action>, after: seq<Action>)
    ensures var s := Run(INITIAL, before);
            var t := Run(s, after);
            s.command == Stop(Stopped) ==>
              && Startable(s) && s.alive == {}
              && BeyondGeneration(t, s.nextGeneration)
              && LaunchedBeyond(s, t, s.nextGeneration)
  {
    RunKeepsInv(INITIAL, before);
    var s := Run(INITIAL, before);
    if s.command == Stop(Stopped) {
      forall c | c in s.alive ensures Owned(s, c) {}
      RunStaysBeyond(s, after, s.nextGeneration);
    }
  }

  // ---------------------------------------------------------------------------
  // Crash bursts

  /** The step in which monitor `g` finds its replacement's port open. */
  predicate Confirms(s: State, a: Action, g: nat) {
    a == MonitorStep(g, true) && g in s.monitors && s.monitors[g].pc.ProbePort?
  }

  /** Monitor `g` never confirms a replacement; commands, exits and other threads are unrestricted. */
  predicate NeverConfirms(s: State, trace: seq<Action>, g: nat)
    decreases |trace|
  {
    trace == [] || (!Confirms(s, trace[0], g) && NeverConfirms(Step(s, trace[0]), trace[1..], g))
  }

  /** How many processes were ever launched for generation `g`. */
  function LaunchedFor(spawned: seq<Child>, g: nat): nat {
    if spawned == [] then 0
    else
      var n := |spawned| - 1;
      LaunchedFor(spawned[..n], g) + if spawned[n].generation == g then 1 else 0
  }

  lemma LaunchedAppend(spawned: seq<Child>, c: Child, g: nat)
    ensures LaunchedFor(spawned + [c], g) == LaunchedFor(spawned, g) + if c.generation == g then 1 else 0
  {
    assert (spawned + [c])[..|spawned|] == spawned;
  }

  /** Nothing of generation `g` can launch or supervise again. */
  ghost predicate Past(s: State, g: nat) {
    && g <= s.nextGeneration
    && (s.command.Start? ==> StartBeyond(s.command.start, g))
    && (forall h :: h in s.monitors ==> g < h)
  }

  lemma StartStaysPast(s: State, pc: StartPc, ok: bool, g: nat)
    requires Past(s, g) && s.command == Start(pc)
    ensures Past(StartMove(s, pc, ok), g)
    ensures LaunchedFor(StartMove(s, pc, ok).spawned, g) == LaunchedFor(s.spawned, g)
  {
    if pc.Launch? { LaunchedAppend(s.spawned, Launched(s, pc.generation), g); }
  }

  lemma MonitorStaysPast(s: State, h: nat, ok: bool, g: nat)
    requires Past(s, g) && h in s.monitors
    ensures Past(MonitorMove(s, h, ok), g)
    ensures LaunchedFor(MonitorMove(s, h, ok).spawned, g) == LaunchedFor(s.spawned, g)
  {
    hide MonitorMove;
    MonitorSupervises(s, h, ok);
    LaunchedAppend(s.spawned, Launched(s, h), g);
  }

  lemma StepStaysPast(s: State, a: Action, g: nat)
    requires Past(s, g)
    ensures Past(Step(s, a), g) && LaunchedFor(Step(s, a).spawned, g) == LaunchedFor(s.spawned, g)
  {
    hide StartMove, MonitorMove;
    match a
    case CommandStep(_, ok) => if s.command.Start? { StartStaysPast(s, s.command.start, ok, g); }
    case MonitorStep(h, ok) => if h in s.monitors { MonitorStaysPast(s, h, ok, g); }
    case ChildExits(_) =>
  }

  lemma {:induction false} RunStaysPast(s: State, trace: seq<Action>, g: nat)
    requires Past(s, g)
    ensures Past(Run(s, trace), g) && LaunchedFor(Run(s, trace).spawned, g) == LaunchedFor(s.spawned, g)
    decreases |trace|
  {
    if trace != [] {
      StepStaysPast(s, trace[0], g);
      RunStaysPast(Step(s, trace[0]), trace[1..], g);
    }
  }

  /** While a monitor runs no command launches anything or touches the monitors. */
  lemma CommandSparesMonitor(s: State, request: Request, ok: bool, g: nat)
    requires CommandInv(s) && g in s.monitors
    ensures var t := Command(s, request, ok);
            t.monitors == s.monitors && t.spawned == s.spawned && t.nextGeneration >= s.nextGeneration
  {
  }

  /** The launches for `g` between `s` and `t` are those its monitor's history counts, and it may leave. */
  ghost predicate Counted(s: State, t: State, g: nat)
    requires g in s.monitors
  {
    if g in t.monitors
    then LaunchedFor(t.spawned, g) + s.monitors[g].unhealthy == LaunchedFor(s.spawned, g) + t.monitors[g].unhealthy
    else LaunchedFor(t.spawned, g) == LaunchedFor(s.spawned, g) && Past(t, g)
  }

  lemma WatchCounts(s: State, g: nat, ok: bool)
    requires g in s.monitors && Past(Exit(s, g), g)
    ensures Counted(s, Watch(s, g, s.monitors[g], ok), g)
  {
  }

  /** Every launch is entered in the monitor's history at once. */
  lemma SpawnCounts(s: State, g: nat, ok: bool)
    requires g in s.monitors && s.monitors[g].pc.Spawn?
    ensures Counted(s, Respawn(s, g, s.monitors[g], ok), g)
  {
    LaunchedAppend(s.spawned, Launched(s, g), g);
  }

  lemma RespawnCounts(s: State, g: nat, ok: bool)
    requires g in s.monitors && !s.monitors[g].pc.Spawn?
    requires Past(Exit(s, g), g) && !Confirms(s, MonitorStep(g, ok), g)
    ensures Counted(s, Respawn(s, g, s.monitors[g], ok), g)
  {
    hide LaunchedFor;
  }

  /** When the monitor returns, nothing of its generation is left to come. */
  lemma ExitIsPast(s: State, g: nat)
    requires Inv(s) && g in s.monitors
    ensures Past(Exit(s, g), g)
  {
    OnlyMonitor(s);
    assert MonitorInv(s, g);
  }

  lemma CommandHolds(s: State)
    requires Inv(s)
    ensures CommandInv(s)
  {
  }

  lemma StepCounts(s: State, a: Action, g: nat)
    requires Inv(s) && g in s.monitors && !Confirms(s, a, g)
    ensures Counted(s, Step(s, a), g)
  {
    hide Inv, CommandInv, Command, Watch, Respawn, LaunchedFor;
    OnlyMonitor(s);
    CommandHolds(s);
    match a
    case CommandStep(request, ok) => CommandSparesMonitor(s, request, ok, g);
    case MonitorStep(h, ok) =>
      if h in s.monitors {
        ExitIsPast(s, g);
        WatchCounts(s, g, ok);
        if s.monitors[g].pc.Spawn? { SpawnCounts(s, g, ok); } else { RespawnCounts(s, g, ok); }
      }
    case ChildExits(_) =>
  }

  lemma {:induction false} BurstRun(s: State, trace: seq<Action>, g: nat)
    requires Inv(s) && g in s.monitors && NeverConfirms(s, trace, g)
    ensures LaunchedFor(Run(s, trace).spawned, g) + s.monitors[g].unhealthy
            <= LaunchedFor(s.spawned, g) + SERVER_MAX_RESPAWN_ATTEMPTS
    ensures g !in Run(s, trace).monitors ==> Past(Run(s, trace), g)
    decreases |trace|
  {
    assert MonitorInv(s, g);
    if trace != [] {
      var t := Step(s, trace[0]);
      StepCounts(s, trace[0], g);
      StepKeepsInv(s, trace[0]);
      if g in t.monitors { BurstRun(t, trace[1..], g); } else { RunStaysPast(t, trace[1..], g); }
    }
  }

  /**
    In every interleaving of commands, monitors and exits, from any reachable state a monitor
    launches at most five replacements before it confirms one, and fewer by those it has already
    launched in vain. Once it has returned and no command is under way, start is possible again
    unless a later start has already succeeded.
   */
  lemma CrashBurst(before: seq<Action>, burst: seq<Action>, g: nat)
    requires g in Run(INITIAL, before).monitors && NeverConfirms(Run(INITIAL, before), burst, g)
    ensures var s := Run(INITIAL, before);
            var t := Run(s, burst);
            && LaunchedFor(t.spawned, g) + s.monitors[g].unhealthy
               <= LaunchedFor(s.spawned, g) + SERVER_MAX_RESPAWN_ATTEMPTS
            && (g !in t.monitors && t.command.Idle? ==> Startable(t) || exists h :: h in t.monitors && g < h)
  {
    RunKeepsInv(INITIAL, before);
    RunKeepsInv(Run(INITIAL, before), burst);
    BurstRun(Run(INITIAL, before), burst, g);
  }

  predicate NoCommands(trace: seq<Action>) {
    forall i :: 0 <= i < |trace| ==> !trace[i].CommandStep?
  }

  lemma QuietStep(s: State, a: Action)
    requires !a.CommandStep?
    ensures Step(s, a).monitors.Keys <= s.monitors.Keys && Step(s, a).command == s.command
  {
    hide MonitorMove;
    if a.MonitorStep? && a.generation in s.monitors { MonitorSupervises(s, a.generation, a.ok); }
  }

  lemma {:induction false} QuietRun(s: State, trace: seq<Action>)
    requires NoCommands(trace)
    ensures Run(s, trace).monitors.Keys <= s.monitors.Keys && Run(s, trace).command == s.command
    decreases |trace|
  {
    if trace != [] {
      QuietStep(s, trace[0]);
      QuietRun(Step(s, trace[0]), trace[1..]);
    }
  }

  /** Left alone, the monitor's return leaves the supervisor stopped, with start possible again. */
  lemma GivingUpStops(before: seq<Action>, burst: seq<Action>, g: nat)
    requires g in Run(INITIAL, before).monitors && Run(INITIAL, before).command.Idle? && NoCommands(burst)
    ensures var t := Run(Run(INITIAL, before), burst);
            g !in t.monitors ==> Startable(t) && t.command.Idle? && t.alive == {}
  {
    var s := Run(INITIAL, before);
    RunKeepsInv(INITIAL, before);
    RunKeepsInv(s, burst);
    OnlyMonitor(s);
    QuietRun(s, burst);
    var t := Run(s, burst);
    if g !in t.monitors {
      assert forall h :: h in t.monitors ==> h in s.monitors.Keys;
      assert t.monitors == map[];
      StoppedIsQuiet(t);
    }
  }

  /** How far a monitor is from giving up while its server keeps failing. */
  function BurstRank(m: Monitor): int {
    8 * (SERVER_MAX_RESPAWN_ATTEMPTS - m.attempts)
    + match m.pc
      case Top => 18 case Inspect => 17 case Clear => 16
      case Backoff => 20 case Spawn => 19 case Acquire => 18 case Check => 17 case Install => 16
      case AwaitPort => 15 case ProbePort => 15 case Unregister => 14
      case Budget => 13 case GiveUp => 12
  }

  /** The steps that only let time pass: polling during the back-off or for the port. */
  predicate Polls(m: Monitor, ok: bool) {
    || (m.pc.Backoff? && !ok)
    || m.pc.ProbePort?
    || (m.pc.AwaitPort? && ok)
  }

  /** The step finds the registered server running, or its port open. */
  predicate FindsHealthy(s: State, a: Action, g: nat) {
    && a == MonitorStep(g, true) && g in s.monitors
    && (s.monitors[g].pc.ProbePort? || (s.monitors[g].pc.Inspect? && s.slot.Some? && s.slot.value in s.alive))
  }

  /** The monitor is nearer to giving up in `t`, or has only let time pass. */
  predicate Nearer(s: State, t: State, g: nat, ok: bool)
    requires g in s.monitors
  {
    g in t.monitors ==>
      if Polls(s.monitors[g], ok) then BurstRank(t.monitors[g]) <= BurstRank(s.monitors[g])
      else BurstRank(t.monitors[g]) < BurstRank(s.monitors[g])
  }

  lemma LockIsOwn(s: State, g: nat)
    requires Mine(s, g)
    ensures s.lock.Some? ==> s.lock.value == g
  {
  }

  lemma RankPositive(s: State, g: nat)
    requires g in s.monitors && MonitorInv(s, g)
    ensures 0 <= BurstRank(s.monitors[g])
  {
  }

  lemma WatchAdvances(s: State, g: nat, ok: bool)
    requires g in s.monitors && MonitorInv(s, g) && Watching(s.monitors[g].pc)
    requires s.lock.Some? ==> s.lock.value == g
    requires !FindsHealthy(s, MonitorStep(g, ok), g)
    ensures Nearer(s, Watch(s, g, s.monitors[g], ok), g, ok)
  {
  }

  lemma RespawnAdvances(s: State, g: nat, ok: bool)
    requires g in s.monitors && MonitorInv(s, g) && !Watching(s.monitors[g].pc)
    requires s.lock.Some? ==> s.lock.value == g
    requires !FindsHealthy(s, MonitorStep(g, ok), g)
    ensures Nearer(s, Respawn(s, g, s.monitors[g], ok), g, ok)
  {
  }

  /**
    While its server keeps failing, every monitor step other than polling brings the monitor
    nearer to giving up, and polling never moves it away.
   */
  lemma BurstAdvances(s: State, g: nat, ok: bool)
    requires Inv(s) && g in s.monitors && !FindsHealthy(s, MonitorStep(g, ok), g)
    ensures 0 <= BurstRank(s.monitors[g])
    ensures var t := MonitorMove(s, g, ok);
            g in t.monitors ==>
              if Polls(s.monitors[g], ok) then BurstRank(t.monitors[g]) <= BurstRank(s.monitors[g])
              else BurstRank(t.monitors[g]) < BurstRank(s.monitors[g])
  {
    hide Inv, Watch, Respawn, Polls, BurstRank;
    MonitorRelies(s, g);
    LockIsOwn(s, g);
    RankPositive(s, g);
    if Watching(s.monitors[g].pc) { WatchAdvances(s, g, ok); } else { RespawnAdvances(s, g, ok); }
  }

  /** Monitor `g` never finds its server healthy. */
  predicate Failing(s: State, trace: seq<Action>, g: nat)
    decreases |trace|
  {
    trace == [] || (!FindsHealthy(s, trace[0], g) && Failing(Step(s, trace[0]), trace[1..], g))
  }

  /** The steps other than polling that monitor `g` takes in the run. */
  function Advances(s: State, trace: seq<Action>, g: nat): nat
    decreases |trace|
  {
    if trace == [] then 0
    else
      var a := trace[0];
      (if a.MonitorStep? && a.generation == g && g in s.monitors && !Polls(s.monitors[g], a.ok) then 1 else 0)
      + Advances(Step(s, a), trace[1..], g)
  }

  /** A step of any other thread leaves the monitor where it is. */
  lemma OthersSpareMonitor(s: State, a: Action, g: nat)
    requires Inv(s) && g in s.monitors && !(a.MonitorStep? && a.generation == g)
    ensures g in Step(s, a).monitors && Step(s, a).monitors[g] == s.monitors[g]
  {
    OnlyMonitor(s);
    match a
    case CommandStep(request, ok) => CommandSparesMonitor(s, request, ok, g);
    case MonitorStep(_, _) =>
    case ChildExits(_) =>
  }

  lemma LeavingIsPast(s: State, a: Action, g: nat)
    requires Inv(s) && g in s.monitors && !FindsHealthy(s, a, g)
    ensures g !in Step(s, a).monitors ==> Past(Step(s, a), g)
  {
    StepCounts(s, a, g);
  }

  /**
    While its server keeps failing, a monitor that takes more than its rank in steps other than
    polling has returned, whatever the commands and exits in between.
   */
  lemma {:induction false} BurstEnds(s: State, trace: seq<Action>, g: nat)
    requires Inv(s) && g in s.monitors && Failing(s, trace, g)
    ensures var t := Run(s, trace);
            g in t.monitors ==> BurstRank(t.monitors[g]) + Advances(s, trace, g) <= BurstRank(s.monitors[g])
    ensures Advances(s, trace, g) > BurstRank(s.monitors[g]) ==> g !in Run(s, trace).monitors
    decreases |trace|
  {
    assert MonitorInv(s, g);
    if trace != [] {
      var a, t := trace[0], Step(s, trace[0]);
      StepKeepsInv(s, a);
      LeavingIsPast(s, a, g);
      if a.MonitorStep? && a.generation == g { BurstAdvances(s, g, a.ok); } else { OthersSpareMonitor(s, a, g); }
      if g in t.monitors { BurstEnds(t, trace[1..], g); } else { RunStaysPast(t, trace[1..], g); }
    }
  }

  /** How many of its own steps a monitor whose generation is no longer desired can still take. */
  function ExitRank(pc: MonitorPc): nat {
    match pc
    case Top => 1 case Inspect => 3 case Clear => 2
    case Budget => 1 case GiveUp => 1 case Backoff => 1
    case Spawn => 7 case Acquire => 6 case Check => 1 case Install => 5
    case AwaitPort => 3 case ProbePort => 4 case Unregister => 2
  }

  /**
    The join in stop always ends: once desired has moved on, every step of the monitor is
    enabled and brings its return closer, whatever the environment answers.
   */
  lemma JoinTerminates(s: State, g: nat, ok: bool)
    requires Inv(s) && g in s.monitors && s.desired != g
    ensures var t := MonitorMove(s, g, ok);
            t.desired == s.desired
            && (g in t.monitors ==> ExitRank(t.monitors[g].pc) < ExitRank(s.monitors[g].pc))
  {
    OnlyMonitor(s);
    assert MonitorInv(s, g);
  }

  // ---------------------------------------------------------------------------
  // What start, the monitor and stop achieve

  /** Child `c` is registered and running, monitor `g` watches it, and no stop is under way. */
  ghost predicate Serving(s: State, g: nat, c: Child) {
    && s.slot == Some(c) && c in s.alive && c.generation == g
    && 0 < s.desired == g && s.lock.None?
    && s.monitors.Keys == {g} && Watchful(s.monitors[g].pc) && s.monitors[g].attempts == 0
    && Unhurried(s.command)
  }

  /** No command is under way, or one that only looks: status, or a start that finds the server there. */
  predicate Unhurried(command: CommandPc) {
    || command.Idle? || command.Report?
    || (command.Start? && (command.start.Prune? || command.start.CheckSlot? || command.start.CheckDesired?))
  }

  /** The child exits, a stop begins, or polling the child fails. */
  predicate Disturbs(s: State, a: Action, g: nat, c: Child) {
    || a == ChildExits(c)
    || (a.CommandStep? && a.request.BeginStop? && s.command.Idle?)
    || (a == MonitorStep(g, false) && g in s.monitors && s.monitors[g].pc.Inspect?)
  }

  predicate Undisturbed(s: State, trace: seq<Action>, g: nat, c: Child)
    decreases |trace|
  {
    trace == [] || (!Disturbs(s, trace[0], g, c) && Undisturbed(Step(s, trace[0]), trace[1..], g, c))
  }

  lemma StepKeepsServing(s: State, a: Action, g: nat, c: Child)
    requires Serving(s, g, c) && !Disturbs(s, a, g, c)
    ensures Serving(Step(s, a), g, c)
  {
    assert forall h :: h in s.monitors <==> h == g;
  }

  lemma {:induction false} RunKeepsServing(s: State, trace: seq<Action>, g: nat, c: Child)
    requires Serving(s, g, c) && Undisturbed(s, trace, g, c)
    ensures Serving(Run(s, trace), g, c)
    decreases |trace|
  {
    hide Serving, Step;
    if trace != [] {
      StepKeepsServing(s, trace[0], g, c);
      RunKeepsServing(Step(s, trace[0]), trace[1..], g, c);
    }
  }

  lemma WatchedIsServing(s: State, g: nat, c: Child)
    requires Inv(s) && s.command.Idle? && s.slot == Some(c) && c in s.alive
    requires g in s.monitors && Watchful(s.monitors[g].pc)
    ensures Serving(s, g, c)
  {
    MonitorRelies(s, g);
    LockIsOwn(s, g);
    assert forall h :: h in s.monitors ==> h == g;
  }

  /**
    A healthy server is left alone: while it does not exit, no stop begins and no poll fails, it
    keeps running, registered and watched, whatever starts, status calls and other exits come.
   */
  lemma HealthyServerStays(before: seq<Action>, after: seq<Action>, g: nat, c: Child)
    requires var s := Run(INITIAL, before);
             && s.command.Idle? && s.slot == Some(c) && c in s.alive
             && g in s.monitors && Watchful(s.monitors[g].pc)
             && Undisturbed(s, after, g, c)
    ensures var t := Run(Run(INITIAL, before), after);
            && t.slot == Some(c) && c in t.alive && t.desired == g
            && g in t.monitors && Watchful(t.monitors[g].pc)
  {
    RunKeepsInv(INITIAL, before);
    WatchedIsServing(Run(INITIAL, before), g, c);
    RunKeepsServing(Run(INITIAL, before), after, g, c);
  }

  function Repeated(a: Action, n: nat): (trace: seq<Action>)
    ensures |trace| == n && forall i :: 0 <= i < n ==> trace[i] == a
  {
    if n == 0 then [] else [a] + Repeated(a, n - 1)
  }

  lemma RunFirst(s: State, a: Action, rest: seq<Action>)
    ensures Run(s, [a] + rest) == Run(Step(s, a), rest)
  {
    hide Step;
    assert ([a] + rest)[1..] == rest;
  }

  /** How many steps of its own a monitor needs to bring up a replacement, when all goes well. */
  function RecoveryRank(pc: MonitorPc): nat {
    match pc
    case Top => 11 case Inspect => 10 case Clear => 9 case Budget => 8 case Backoff => 7 case Spawn => 6
    case Acquire => 5 case Check => 4 case Install => 3 case AwaitPort => 2 case ProbePort => 1
    case _ => 0
  }

  /** Monitor `g` is on its way to child `c`, the next to be launched after `spawned`. */
  ghost predicate Recovering(s: State, g: nat, spawned: seq<Child>) {
    var c := Child(|spawned|, g);
    && s.monitors.Keys == {g} && 0 < s.desired == g && s.command.Idle?
    && var m := s.monitors[g];
       && s.spawned == (if m.local == Some(c) || s.slot == Some(c) then spawned + [c] else spawned)
       && (s.slot.Some? ==> s.slot.value.generation == g)
       && (HoldsLock(m.pc) || s.lock.None?)
       && (match m.pc
           case Top | Inspect =>
             m.attempts == 0 && m.local.None? && s.slot.Some? && s.slot.value !in s.alive && s.slot != Some(c)
           case Clear => m.attempts == 0 && m.local.None? && s.slot != Some(c)
           case Budget => m.attempts == 0 && m.local.None? && s.slot.None?
           case Backoff | Spawn => s.slot.None? && m.local.None?
           case Acquire | Check | Install => s.slot.None? && m.local == Some(c) && c in s.alive
           case AwaitPort | ProbePort => s.slot == Some(c) && c in s.alive && m.local.None?
           case _ => false)
  }

  lemma RecoveryAdvances(s: State, g: nat, spawned: seq<Child>)
    requires Recovering(s, g, spawned)
    ensures var t := Step(s, MonitorStep(g, true));
            var c := Child(|spawned|, g);
            if s.monitors[g].pc.ProbePort? then Serving(t, g, c) && t.command.Idle? && t.spawned == spawned + [c]
            else Recovering(t, g, spawned) && RecoveryRank(t.monitors[g].pc) == RecoveryRank(s.monitors[g].pc) - 1
  {
    assert g in s.monitors;
  }

  lemma {:induction false} RecoveryRun(s: State, g: nat, spawned: seq<Child>)
    requires Recovering(s, g, spawned)
    ensures var t := Run(s, Repeated(MonitorStep(g, true), RecoveryRank(s.monitors[g].pc)));
            var c := Child(|spawned|, g);
            Serving(t, g, c) && t.command.Idle? && t.spawned == spawned + [c]
    decreases RecoveryRank(s.monitors[g].pc)
  {
    hide Step, Serving;
    var a := MonitorStep(g, true);
    var n := RecoveryRank(s.monitors[g].pc);
    RunFirst(s, a, Repeated(a, n - 1));
    RecoveryAdvances(s, g, spawned);
    if n > 1 { RecoveryRun(Step(s, a), g, spawned); }
  }

  /** Everything running was launched. */
  ghost predicate Numbered(s: State) {
    forall c :: c in s.alive ==> c.id < |s.spawned|
  }

  lemma StepKeepsNumbered(s: State, a: Action)
    requires Numbered(s)
    ensures Numbered(Step(s, a))
  {
    hide StartMove, StopMove, Watch, Respawn;
    match a
    case CommandStep(_, ok) =>
      if s.command.Start? { StartKeepsNumbered(s, s.command.start, ok); }
      if s.command.Stop? { StopLaunchesNothing(s, s.command.stop); }
    case MonitorStep(g, ok) =>
      if g in s.monitors { MonitorKeepsNumbered(s, g, ok); }
    case ChildExits(_) =>
  }

  lemma StartKeepsNumbered(s: State, pc: StartPc, ok: bool)
    requires Numbered(s)
    ensures Numbered(StartMove(s, pc, ok))
  {
  }

  lemma StopLaunchesNothing(s: State, pc: StopPc)
    ensures StopMove(s, pc).alive <= s.alive && StopMove(s, pc).spawned == s.spawned
  {
  }

  lemma MonitorKeepsNumbered(s: State, g: nat, ok: bool)
    requires Numbered(s) && g in s.monitors
    ensures Numbered(MonitorMove(s, g, ok))
  {
  }

  lemma {:induction false} RunKeepsNumbered(s: State, trace: seq<Action>)
    requires Numbered(s)
    ensures Numbered(Run(s, trace))
    decreases |trace|
  {
    hide Step, Numbered;
    if trace != [] {
      StepKeepsNumbered(s, trace[0]);
      RunKeepsNumbered(Step(s, trace[0]), trace[1..]);
    }
  }

  lemma BreakIsNoticed(s: State, g: nat, c: Child, broken: Action)
    requires Serving(s, g, c) && s.command.Idle? && c.id < |s.spawned|
    requires Disturbs(s, broken, g, c) && !broken.CommandStep? && s.monitors[g].local.None?
    ensures var t := Step(s, broken);
            g in t.monitors && Recovering(t, g, s.spawned) && RecoveryRank(t.monitors[g].pc) > 0
  {
    assert forall h :: h in s.monitors <==> h == g;
  }

  /**
    A server that exits, or whose polling fails, is replaced: some continuation, the monitor's own
    steps going well, registers a newly launched child of the same generation, running and watched.
   */
  lemma BrokenServerIsReplaced(before: seq<Action>, g: nat, c: Child, broken: Action) returns (after: seq<Action>)
    requires var s := Run(INITIAL, before);
             && s.command.Idle? && s.slot == Some(c) && c in s.alive
             && g in s.monitors && Watchful(s.monitors[g].pc)
             && Disturbs(s, broken, g, c) && !broken.CommandStep?
    ensures forall i :: 0 <= i < |after| ==> after[i] == MonitorStep(g, true)
    ensures var s := Run(INITIAL, before);
            var t, next := Run(Step(s, broken), after), Child(|s.spawned|, g);
            && t.slot == Some(next) && next in t.alive && t.spawned == s.spawned + [next]
            && t.desired == g && g in t.monitors && Watchful(t.monitors[g].pc) && t.monitors[g].attempts == 0
  {
    var s := Run(INITIAL, before);
    RunKeepsInv(INITIAL, before);
    RunKeepsNumbered(INITIAL, before);
    WatchedIsServing(s, g, c);
    MonitorRelies(s, g);
    BreakIsNoticed(s, g, c, broken);
    var t := Step(s, broken);
    after := Repeated(MonitorStep(g, true), RecoveryRank(t.monitors[g].pc));
    RecoveryRun(t, g, s.spawned);
  }

  /** How many steps start still needs when all goes well. */
  function StartRank(pc: StartPc): nat {
    match pc
    case Prune => 13 case CheckSlot => 12 case CheckDesired(_) => 11 case Take => 10 case Join(_) => 9
    case Probe => 8 case NewGeneration => 7 case Publish(_) => 6 case Launch(_) => 5 case Register(_) => 4
    case AwaitOpen(_) => 3 case RunMonitor(_) => 2 case StoreHandle(_) => 1
    case _ => 0
  }

  /** Start is on its way to child `c` of a new generation, the next to be launched after `spawned`. */
  ghost predicate Starting(s: State, c: Child, spawned: seq<Child>) {
    var g := c.generation;
    && c.id == |spawned| && 0 < g && s.lock.None? && s.command.Start?
    && (match s.command.start
        case Prune | CheckSlot | Take | Join(_) | Probe | NewGeneration =>
          Startable(s) && s.nextGeneration + 1 == g && s.spawned == spawned
        case CheckDesired(has) => !has && Startable(s) && s.nextGeneration + 1 == g && s.spawned == spawned
        case Publish(n) => n == g && s.slot.None? && s.monitors == map[] && s.spawned == spawned
        case Launch(n) => n == s.desired == g && s.slot.None? && s.monitors == map[] && s.spawned == spawned
        case Register(d) =>
          d == c && s.desired == g && s.slot.None? && s.monitors == map[] && c in s.alive && s.spawned == spawned + [c]
        case AwaitOpen(n) => n == g && s.monitors == map[] && Registered(s, c, spawned)
        case RunMonitor(n) => n == g && s.monitors == map[] && Registered(s, c, spawned)
        case StoreHandle(n) => n == g && s.monitors == map[g := Monitor(Top, 0, None, 0)] && Registered(s, c, spawned)
        case _ => false)
  }

  ghost predicate Registered(s: State, c: Child, spawned: seq<Child>) {
    s.desired == c.generation && s.slot == Some(c) && c in s.alive && s.spawned == spawned + [c]
  }

  lemma StartAdvances(s: State, c: Child, spawned: seq<Child>)
    requires Starting(s, c, spawned)
    ensures var t := Step(s, CommandStep(BeginStart, true));
            if s.command.start.StoreHandle?
            then Serving(t, c.generation, c) && t.command.Report? && t.spawned == spawned + [c]
            else Starting(t, c, spawned) && StartRank(t.command.start) == StartRank(s.command.start) - 1
  {
  }

  lemma {:induction false} StartRun(s: State, c: Child, spawned: seq<Child>)
    requires Starting(s, c, spawned)
    ensures var t := Run(s, Repeated(CommandStep(BeginStart, true), StartRank(s.command.start)));
            Serving(t, c.generation, c) && t.command.Report? && t.spawned == spawned + [c]
    decreases StartRank(s.command.start)
  {
    hide Step, Serving, Registered;
    var a := CommandStep(BeginStart, true);
    var n := StartRank(s.command.start);
    RunFirst(s, a, Repeated(a, n - 1));
    StartAdvances(s, c, spawned);
    if n > 1 { StartRun(Step(s, a), c, spawned); }
  }

  /**
    From every stopped state the fourteen steps of a start that goes well register a newly launched
    child under a new generation, running and watched.
   */
  lemma StartServes(before: seq<Action>) returns (starting: seq<Action>)
    requires Run(INITIAL, before).command.Idle? && Startable(Run(INITIAL, before))
    ensures |starting| == 14 && forall i :: 0 <= i < 14 ==> starting[i] == CommandStep(BeginStart, true)
    ensures var s := Run(INITIAL, before);
            var t, c := Run(s, starting), Child(|s.spawned|, s.nextGeneration + 1);
            && t.slot == Some(c) && c in t.alive && t.spawned == s.spawned + [c]
            && t.desired == c.generation && c.generation in t.monitors && Watchful(t.monitors[c.generation].pc)
            && t.command.Report?
  {
    var s := Run(INITIAL, before);
    var a := CommandStep(BeginStart, true);
    RunKeepsInv(INITIAL, before);
    BeginsStarting(s);
    StartRun(Step(s, a), Child(|s.spawned|, s.nextGeneration + 1), s.spawned);
    var rest := Repeated(a, StartRank(Step(s, a).command.start));
    RunFirst(s, a, rest);
    starting := [a] + rest;
  }

  lemma BeginsStarting(s: State)
    requires Inv(s) && s.command.Idle? && Startable(s)
    ensures var t := Step(s, CommandStep(BeginStart, true));
            Starting(t, Child(|s.spawned|, s.nextGeneration + 1), s.spawned) && t.command.start.Prune?
  {
  }

  /** How many steps of its own stop still needs. */
  function StopRank(pc: StopPc): nat {
    match pc
    case ClearDesired => 5 case DropProcess => 4 case TakeHandle => 3 case JoinMonitor(_) => 2 case Stopped => 1
  }

  /** Stop waits for a monitor: for its lock section or for its return. */
  predicate Waits(s: State, g: nat)
    requires s.command.Stop?
  {
    || (s.command.stop.DropProcess? && s.lock == Some(g))
    || (s.command.stop.JoinMonitor? && s.command.stop.waiting == Some(g) && g in s.monitors)
  }

  /** Stop gets on with every step, except while it waits for a monitor that is no longer desired. */
  lemma StopAdvances(s: State, request: Request, ok: bool)
    requires Inv(s) && s.command.Stop?
    ensures var t := Step(s, CommandStep(request, ok));
            || t.command.Idle? || (t.command.Stop? && StopRank(t.command.stop) < StopRank(s.command.stop))
            || (t == s && exists g :: g in s.monitors && Waits(s, g) && s.desired != g)
  {
    var t := Step(s, CommandStep(request, ok));
    if s.lock.Some? { assert MonitorInv(s, s.lock.value); }
    if s.command.stop.DropProcess? && s.lock.Some? {
      assert Waits(s, s.lock.value) && s.lock.value in s.monitors && s.desired != s.lock.value;
    }
    if s.command.stop.JoinMonitor? && t == s {
      var g := s.command.stop.waiting.value;
      assert MonitorInv(s, g);
      assert Waits(s, g) && g in s.monitors && s.desired != g;
    }
  }

  lemma RefusalSteps(s: State, ok: bool)
    requires s.command.Idle? && s.lock.None? && s.slot.Some? && s.slot.value in s.alive
    ensures var a := CommandStep(BeginStart, ok);
            Step(Step(Step(Step(Step(s, a), a), a), a), a) == s
  {
    var a := CommandStep(BeginStart, ok);
    var t := Step(Step(Step(s, a), a), a);
    assert t == s.(command := Start(CheckDesired(true)));
    assert Step(t, a) == s.(command := Report);
  }

  /** A start that finds a running server reports it within five steps and changes nothing. */
  lemma StartFindsServer(before: seq<Action>, ok: bool)
    requires var s := Run(INITIAL, before);
             s.command.Idle? && s.lock.None? && s.slot.Some? && s.slot.value in s.alive
    ensures Run(Run(INITIAL, before), Repeated(CommandStep(BeginStart, ok), 5)) == Run(INITIAL, before)
  {
    hide Run, Step;
    var s, a := Run(INITIAL, before), CommandStep(BeginStart, ok);
    RefusalSteps(s, ok);
    RunFive(s, a, Repeated(a, 5));
  }

  lemma RunFive(s: State, a: Action, trace: seq<Action>)
    requires |trace| == 5 && forall i :: 0 <= i < 5 ==> trace[i] == a
    ensures Run(s, trace) == Step(Step(Step(Step(Step(s, a), a), a), a), a)
  {
    hide Step;
    assert trace == [a] + ([a] + ([a] + ([a] + ([a] + []))));
    RunFirst(s, a, [a] + ([a] + ([a] + ([a] + []))));
    RunFirst(Step(s, a), a, [a] + ([a] + ([a] + [])));
    RunFirst(Step(Step(s, a), a), a, [a] + ([a] + []));
    RunFirst(Step(Step(Step(s, a), a), a), a, [a] + []);
    RunFirst(Step(Step(Step(Step(s, a), a), a), a), a, []);
  }

  /** How many steps the monitor that stop waits for still needs. */
  function OwnerRank(s: State): nat {
    var owner := MonitorOwner(s);
    if owner.Some? && owner.value in s.monitors then ExitRank(s.monitors[owner.value].pc) else 0
  }

  /** While stop waits, the monitor's own step gets it on. */
  lemma WaitAdvances(s: State, g: nat)
    requires Inv(s) && s.command.Stop? && g in s.monitors && s.desired != g
    ensures var t := Step(s, MonitorStep(g, true));
            t.command == s.command && OwnerRank(t) < OwnerRank(s)
  {
    OnlyMonitor(s);
    JoinTerminates(s, g, true);
    MonitorSupervises(s, g, true);
  }

  lemma {:induction false} StopRun(s: State) returns (after: seq<Action>)
    requires Inv(s) && s.command.Stop?
    ensures Run(s, after).command.Idle? && Inv(Run(s, after))
    ensures Run(s, after).monitors == map[]
    decreases StopRank(s.command.stop), OwnerRank(s)
  {
    var a := CommandStep(BeginStop, true);
    StopAdvances(s, BeginStop, true);
    if Step(s, a) == s {
      var g :| g in s.monitors && Waits(s, g) && s.desired != g;
      a := MonitorStep(g, true);
      WaitAdvances(s, g);
    }
    var t := Step(s, a);
    StepKeepsInv(s, a);
    if t.command.Idle? {
      after := [a];
      RunFirst(s, a, []);
      assert [a] + [] == [a];
    } else {
      var rest := StopRun(t);
      RunFirst(s, a, rest);
      after := [a] + rest;
    }
  }

  /** A stop under way can always finish, and leaves nothing running and start possible. */
  lemma StopFinishes(before: seq<Action>) returns (after: seq<Action>)
    requires Run(INITIAL, before).command.Stop?
    ensures var t := Run(Run(INITIAL, before), after);
            t.command.Idle? && Startable(t) && t.alive == {}
  {
    RunKeepsInv(INITIAL, before);
    after := StopRun(Run(INITIAL, before));
    StoppedIsQuiet(Run(Run(INITIAL, before), after));
  }

  /** How many steps start takes from one that fails. */
  function FailureRank(pc: StartPc): nat {
    match pc
    case Probe | FailDrop | Abandon => 1
    case Launch(_) | FailStore => 2
    case AwaitOpen(_) => 3
    case _ => 0
  }

  lemma FailureAdvances(s: State, ok: bool)
    requires Inv(s) && s.command.Start? && FailureRank(s.command.start) > 0
    requires s.command.start.Probe? || s.command.start.Launch? || s.command.start.AwaitOpen? ==> !ok
    ensures var t := Step(s, CommandStep(BeginStart, ok));
            && t.monitors == map[] && t.spawned == s.spawned
            && if FailureRank(s.command.start) == 1 then t.command.Idle?
               else t.command.Start? && FailureRank(t.command.start) == FailureRank(s.command.start) - 1
                    && (t.command.start.FailStore? || t.command.start.FailDrop? || t.command.start.Abandon?)
  {
    LockNeedsMonitor(s);
  }

  lemma LockNeedsMonitor(s: State)
    requires Inv(s) && s.monitors == map[]
    ensures s.lock.None?
  {
  }

  lemma {:induction false} FailureRun(s: State)
    requires Inv(s) && s.command.Start? && FailureRank(s.command.start) > 0
    ensures var t := Run(s, Repeated(CommandStep(BeginStart, false), FailureRank(s.command.start)));
            Inv(t) && t.command.Idle? && t.monitors == map[] && t.spawned == s.spawned
    decreases FailureRank(s.command.start)
  {
    hide Inv, Step;
    var a, n := CommandStep(BeginStart, false), FailureRank(s.command.start);
    FailureAdvances(s, false);
    StepKeepsInv(s, a);
    RunFirst(s, a, Repeated(a, n - 1));
    if n > 1 { FailureRun(Step(s, a)); }
  }

  /**
    A start that finds its port in use, cannot launch its child, or never sees its port opened is
    over within three steps and leaves nothing launched by it running, and start possible again.
   */
  lemma FailedStartStops(before: seq<Action>)
    requires var s := Run(INITIAL, before);
             s.command.Start? && (s.command.start.Probe? || s.command.start.Launch? || s.command.start.AwaitOpen?)
    ensures var s := Run(INITIAL, before);
            var t := Run(s, Repeated(CommandStep(BeginStart, false), FailureRank(s.command.start)));
            t.command.Idle? && Startable(t) && t.alive == {} && t.spawned == s.spawned
  {
    hide Run, Step, Inv;
    RunKeepsInv(INITIAL, before);
    var s := Run(INITIAL, before);
    FailureRun(s);
    StoppedIsQuiet(Run(s, Repeated(CommandStep(BeginStart, false), FailureRank(s.command.start))));
  }

  /** The command thread is about to take the slot lock. */
  predicate NeedsLock(command: CommandPc) {
    match command
    case Idle => false
    case Report => true
    case Start(pc) => pc.Prune? || pc.CheckSlot? || pc.Register? || pc.FailDrop?
    case Stop(pc) => pc.DropProcess? || pc.Stopped?
  }

  /** While a monitor is in its lock section nothing else touches the slot, and a command that needs the lock waits. */
  lemma LockExcludes(before: seq<Action>, a: Action, g: nat)
    requires Run(INITIAL, before).lock == Some(g) && !(a.MonitorStep? && a.generation == g)
    ensures var s := Run(INITIAL, before);
            var t := Step(s, a);
            && t.slot == s.slot && t.lock == s.lock
            && (a.CommandStep? && NeedsLock(s.command) ==> t == s)
  {
    hide Run;
    RunKeepsInv(INITIAL, before);
    OnlyMonitor(Run(INITIAL, before));
  }

  /** A relaunch that fails launches nothing and leaves its attempt counted; the back-off is waited out. */
  lemma RelaunchFails(s: State, g: nat)
    requires g in s.monitors && s.desired == g
    ensures var m, t := s.monitors[g], Step(s, MonitorStep(g, false));
            && (m.pc.Spawn? ==> t == s.(monitors := s.monitors[g := m.(pc := Budget)]))
            && (m.pc.Backoff? ==> t == s)
  {
  }

  /** Asking for the status forgets exactly a registered child that is no longer running. */
  lemma StatusForgetsTheDead(before: seq<Action>, ok: bool)
    requires Run(INITIAL, before).command.Idle? && Run(INITIAL, before).lock.None?
    ensures var s := Run(INITIAL, before);
            var t := Run(s, [CommandStep(BeginStatus, ok), CommandStep(BeginStatus, ok)]);
            && (t.slot.Some? <==> s.slot.Some? && s.slot.value in s.alive)
            && t == s.(slot := t.slot) && (t.slot.Some? ==> t.slot == s.slot)
  {
    var s, a := Run(INITIAL, before), CommandStep(BeginStatus, ok);
    RunFirst(s, a, [a]);
    RunFirst(Step(s, a), a, []);
    assert [a] + [a] == [a, a] && [a] + [] == [a];
  }

  // ---------------------------------------------------------------------------
  // The shared objects, updated in place

  class ServerState {
    var slot: Option<Child>
    var desired: nat
    var nextGeneration: nat
    var lock: Option<nat>
    var handle: Option<nat>
    var monitors: map<nat, Monitor>
    var command: CommandPc
    var alive: set<Child>
    var spawned: seq<Child>

    ghost function Contents(): State
      reads this
    {
      State(slot, desired, nextGeneration, lock, handle, monitors, command, alive, spawned)
    }

    constructor ()
      ensures Contents() == INITIAL
    {
      slot, desired, nextGeneration, lock, handle := None, 0, 0, None, None;
      monitors, command, alive, spawned := map[], Idle, {}, [];
    }

    /** `*guard = child`: what was there is dropped, which kills it. */
    method Replace(child: Option<Child>)
      modifies `slot, `alive
      ensures slot == child && alive == Killed(old(Contents()), old(slot))
    {
      if slot.Some? { alive := alive - {slot.value}; }
      slot := child;
    }

    /** prune_exited. */
    method Prune()
      modifies `slot
      ensures Contents() == PruneExited(old(Contents()))
    {
      if slot.Some? && slot.value !in alive { slot := None; }
    }

    method SpawnProcess(generation: nat) returns (child: Child)
      modifies `alive, `spawned
      ensures child == Launched(old(Contents()), generation)
      ensures alive == old(alive) + {child} && spawned == old(spawned) + [child]
    {
      child := Child(|spawned|, generation);
      alive, spawned := alive + {child}, spawned + [child];
    }

    method DropOwnProcess(generation: nat)
      modifies `slot, `alive
      ensures Contents() == DropOwn(old(Contents()), generation)
    {
      if slot.Some? && slot.value.generation == generation { Replace(None); }
    }

    /** desktop_server_start, up to the new generation. */
    method PrepareTurn(pc: StartPc, ok: bool)
      requires command == CommandPc.Start(pc)
      requires pc.Prune? || pc.CheckSlot? || pc.CheckDesired? || pc.Take? || pc.Join? || pc.Probe? || pc.NewGeneration?
      modifies this
      ensures Contents() == Step(old(Contents()), CommandStep(BeginStart, ok))
    {
      match pc {
        case Prune => if lock.None? { Prune(); command := CommandPc.Start(CheckSlot); }
        case CheckSlot => if lock.None? { command := CommandPc.Start(CheckDesired(slot.Some?)); }
        case CheckDesired(has) => command := if has || desired != 0 then Report else CommandPc.Start(Take);
        case Take => command, handle := CommandPc.Start(Join(handle)), None;
        case Join(h) => if h.None? || h.value !in monitors { command := CommandPc.Start(Probe); }
        case Probe => command := if ok then CommandPc.Start(NewGeneration) else Idle;
        case NewGeneration =>
          nextGeneration := nextGeneration + 1;
          command := CommandPc.Start(Publish(nextGeneration));
      }
    }

    /** desktop_server_start, from the store of the new generation. */
    method LaunchTurn(pc: StartPc, ok: bool)
      requires command == CommandPc.Start(pc)
      requires pc.Publish? || pc.Launch? || pc.Abandon? || pc.Register? || pc.AwaitOpen? || pc.FailStore?
               || pc.FailDrop? || pc.RunMonitor? || pc.StoreHandle?
      modifies this
      ensures Contents() == Step(old(Contents()), CommandStep(BeginStart, ok))
    {
      match pc {
        case Publish(g) => desired := g; command := CommandPc.Start(Launch(g));
        case Launch(g) =>
          if ok {
            var child := SpawnProcess(g);
            command := CommandPc.Start(Register(child));
          } else {
            command := CommandPc.Start(Abandon);
          }
        case Abandon => desired := 0; command := Idle;
        case Register(child) =>
          if lock.None? { Replace(Some(child)); command := CommandPc.Start(AwaitOpen(child.generation)); }
        case AwaitOpen(g) => command := CommandPc.Start(if ok then RunMonitor(g) else FailStore);
        case FailStore => desired := 0; command := CommandPc.Start(FailDrop);
        case FailDrop => if lock.None? { Replace(None); command := Idle; }
        case RunMonitor(g) =>
          monitors := monitors[g := Monitor(Top, 0, None, 0)];
          command := CommandPc.Start(StoreHandle(g));
        case StoreHandle(g) => handle := Some(g); command := Report;
      }
    }

    /** desktop_server_stop. */
    method StopTurn(pc: StopPc)
      requires command == CommandPc.Stop(pc)
      modifies this
      ensures Contents() == Step(old(Contents()), CommandStep(BeginStop, true))
    {
      match pc {
        case ClearDesired => desired := 0; command := CommandPc.Stop(DropProcess);
        case DropProcess => if lock.None? { Replace(None); command := CommandPc.Stop(TakeHandle); }
        case TakeHandle => command, handle := CommandPc.Stop(JoinMonitor(handle)), None;
        case JoinMonitor(h) => if h.None? || h.value !in monitors { command := CommandPc.Stop(Stopped); }
        case Stopped => if lock.None? { Prune(); command := Idle; }
      }
    }

    /** One step of the monitor while it supervises; `attempts` is its respawn_attempts. */
    method WatchTurn(g: nat, ok: bool)
      requires g in monitors && Watching(monitors[g].pc)
      modifies this
      ensures Contents() == Step(old(Contents()), MonitorStep(g, ok))
    {
      var m := monitors[g];
      match m.pc {
        case Top =>
          if desired != g { monitors := monitors - {g}; } else { monitors := monitors[g := m.(pc := Inspect)]; }
        case Inspect =>
          if lock.None? {
            if slot.Some? && slot.value.generation != g {
              monitors := monitors - {g};
            } else {
              var running := slot.Some? && slot.value in alive && ok;
              monitors := monitors[g := m.(pc := if running then Top else Clear)];
            }
          }
        case Clear =>
          if lock.None? { DropOwnProcess(g); monitors := monitors[g := m.(pc := Budget)]; }
        case Budget =>
          if desired != g { monitors := monitors - {g}; }
          else if m.attempts >= SERVER_MAX_RESPAWN_ATTEMPTS { monitors := monitors[g := m.(pc := GiveUp)]; }
          else { monitors := monitors[g := m.(pc := Backoff, attempts := m.attempts + 1)]; }
        case GiveUp =>
          if desired == g { desired := 0; }
          monitors := monitors - {g};
        case Backoff =>
          if desired != g { monitors := monitors - {g}; }
          else if ok { monitors := monitors[g := m.(pc := Spawn)]; }
      }
    }

    /** One step of the monitor while it brings up a replacement. */
    method RespawnTurn(g: nat, ok: bool)
      requires g in monitors && !Watching(monitors[g].pc)
      modifies this
      ensures Contents() == Step(old(Contents()), MonitorStep(g, ok))
    {
      var m := monitors[g];
      match m.pc {
        case Spawn =>
          if ok {
            var child := SpawnProcess(g);
            monitors := monitors[g := m.(pc := Acquire, local := Some(child), unhealthy := m.unhealthy + 1)];
          } else {
            monitors := monitors[g := m.(pc := Budget)];
          }
        case Acquire =>
          if lock.None? { lock := Some(g); monitors := monitors[g := m.(pc := Check)]; }
        case Check =>
          if desired != g {
            if m.local.Some? { alive := alive - {m.local.value}; }
            monitors := monitors - {g};
            lock := None;
          } else {
            monitors := monitors[g := m.(pc := Install)];
          }
        case Install =>
          Replace(m.local);
          monitors := monitors[g := m.(pc := AwaitPort, local := None)];
          lock := None;
        case AwaitPort =>
          monitors := monitors[g := m.(pc := if desired == g && ok then ProbePort else Unregister)];
        case ProbePort =>
          monitors := monitors[g := if ok then m.(pc := Top, attempts := 0, unhealthy := 0) else m.(pc := AwaitPort)];
        case Unregister =>
          if lock.None? { DropOwnProcess(g); monitors := monitors[g := m.(pc := Budget)]; }
      }
    }
  }
}
