/**
  The download and transcode job registry (web/src-tauri/src/downloads.rs).

  The jobs map is changed only inside lock sections, each one atomic step. Terminal events are
  emitted after the lock is released, so a removal first owes an event and emits it later; a
  progress event is checked under the lock and emitted later in the same way. Commands, worker
  completions and emissions interleave arbitrarily. Generations are not bounded.
 */
module DownloadRegistry {
  import opened Wrappers

  type JobId = string

  datatype Spec = Download | Transcode

  /**
    `running` says the abort handle is present. `registration` is history: the generation the
    entry was inserted with, which names this registration of the job id.
   */
  datatype Job = Job(generation: nat, running: bool, spec: Spec, registration: nat)

  datatype Phase = Completed | Failed | Canceled

  datatype Terminal = Terminal(registration: nat, phase: Phase)

  datatype Progress = Progress(jobId: JobId, generation: nat)

  /** The worker spawned for a generation. */
  datatype Worker = Worker(jobId: JobId, registration: nat)

  datatype State = State(
    jobs: map<JobId, Job>,
    nextGeneration: nat,
    drawn: set<nat>,              // generations fetched for an insertion still to take the lock
    workers: map<nat, Worker>,    // by generation, every worker ever spawned
    registered: set<nat>,         // every registration ever made
    owed: multiset<nat>,          // registrations removed whose terminal event is not out yet
    terminal: seq<Terminal>,      // terminal events, in order
    checked: multiset<Progress>,  // progress events that passed their check but are not out yet
    progress: seq<Progress>)      // progress events, in order

  datatype Event =
    | Draw                               // fetch a generation, before the lock
    | Insert(jobId: JobId, spec: Spec, generation: nat)
    | Pause(jobId: JobId)
    | Resume(jobId: JobId)
    | Cancel(jobId: JobId, spec: Spec)   // download_cancel or transcode_cancel
    | ForceStop(jobId: JobId)
    | FinishIfCurrent(jobId: JobId, generation: nat)
    | EmitTerminal(registration: nat, phase: Phase)
    | CheckProgress(jobId: JobId, generation: nat)
    | EmitProgress(event: Progress)

  datatype Reply = Done | Exists | NotFound | WrongKind | AlreadyRunning

  const INITIAL: State := State(map[], 0, {}, map[], {}, multiset{}, [], multiset{}, [])

  predicate Current(s: State, jobId: JobId, generation: nat) {
    jobId in s.jobs && s.jobs[jobId].generation == generation
  }

  /** Take the entry out of the registry and owe its terminal event. */
  function Remove(s: State, jobId: JobId): State
    requires jobId in s.jobs
  {
    s.(jobs := s.jobs - {jobId}, owed := s.owed + multiset{s.jobs[jobId].registration})
  }

  /** The lock section of an insertion; its generation is used up even when the id turns out to be taken. */
  function InsertJob(s: State, jobId: JobId, spec: Spec, g: nat): State {
    var t := s.(drawn := s.drawn - {g});
    if jobId in s.jobs then t
    else t.(jobs := s.jobs[jobId := Job(g, true, spec, g)],
            workers := s.workers[g := Worker(jobId, g)], registered := s.registered + {g})
  }

  function PauseJob(s: State, jobId: JobId): State
    requires jobId in s.jobs
  {
    var g := s.nextGeneration + 1;
    s.(nextGeneration := g, jobs := s.jobs[jobId := s.jobs[jobId].(generation := g, running := false)])
  }

  function ResumeJob(s: State, jobId: JobId): State
    requires jobId in s.jobs
  {
    var g := s.nextGeneration + 1;
    s.(nextGeneration := g, jobs := s.jobs[jobId := s.jobs[jobId].(generation := g, running := true)],
       workers := s.workers[g := Worker(jobId, s.jobs[jobId].registration)])
  }

  /** One atomic step and what the caller sees. */
  function Apply(s: State, e: Event): (State, Reply) {
    match e
    case Draw => (s.(nextGeneration := s.nextGeneration + 1, drawn := s.drawn + {s.nextGeneration + 1}), Done)
    case Insert(id, spec, g) =>
      if g !in s.drawn then (s, Done)
      else (InsertJob(s, id, spec, g), if id in s.jobs then Exists else Done)
    case Pause(id) =>
      if id !in s.jobs then (s, Done)
      else if !s.jobs[id].spec.Download? then (s, WrongKind)
      else if !s.jobs[id].running then (s, Done)
      else (PauseJob(s, id), Done)
    case Resume(id) =>
      if id !in s.jobs then (s, NotFound)
      else if !s.jobs[id].spec.Download? then (s, WrongKind)
      else if s.jobs[id].running then (s, AlreadyRunning)
      else (ResumeJob(s, id), Done)
    case Cancel(id, spec) =>
      if id !in s.jobs then (s, Done)
      else if s.jobs[id].spec != spec then (s, WrongKind)
      else (Remove(s, id), Done)
    case ForceStop(id) => (if id in s.jobs then Remove(s, id) else s, Done)
    case FinishIfCurrent(id, g) => (if Current(s, id, g) then Remove(s, id) else s, Done)
    case EmitTerminal(r, phase) =>
      (if r in s.owed
       then s.(owed := s.owed - multiset{r}, terminal := s.terminal + [Terminal(r, phase)]) else s, Done)
    case CheckProgress(id, g) =>
      (if Current(s, id, g) then s.(checked := s.checked + multiset{Progress(id, g)}) else s, Done)
    case EmitProgress(p) =>
      (if p in s.checked
       then s.(checked := s.checked - multiset{p}, progress := s.progress + [p]) else s, Done)
  }

  function Step(s: State, e: Event): State { Apply(s, e).0 }

  function Run(s: State, trace: seq<Event>): State
    decreases |trace|
  {
    if trace == [] then s else Run(Step(s, trace[0]), trace[1..])
  }

  // ---------------------------------------------------------------------------
  // The registry itself, updated in place

  class DownloadsState {
    var jobs: map<JobId, Job>
    var nextGeneration: nat
    ghost var drawn: set<nat>
    ghost var workers: map<nat, Worker>
    ghost var registered: set<nat>
    ghost var owed: multiset<nat>
    ghost var terminal: seq<Terminal>
    ghost var checked: multiset<Progress>
    ghost var progress: seq<Progress>

    ghost function View(): State reads this {
      State(jobs, nextGeneration, drawn, workers, registered, owed, terminal, checked, progress)
    }

    constructor ()
      ensures View() == INITIAL
    {
      jobs, nextGeneration, drawn, workers, registered := map[], 0, {}, map[], {};
      owed, terminal, checked, progress := multiset{}, [], multiset{}, [];
    }

    /** generation: hand out the next number; it is never handed out again. */
    method Generation() returns (g: nat)
      modifies this`nextGeneration
      ensures g == nextGeneration == old(nextGeneration) + 1
    {
      nextGeneration := nextGeneration + 1;
      g := nextGeneration;
    }

    /** insert_download_job and transcode_start up to the lock: the generation is fetched first. */
    method DrawGeneration() returns (g: nat)
      modifies this
      ensures View() == Step(old(View()), Draw) && g == nextGeneration && g in drawn
    {
      g := Generation();
      drawn := drawn + {g};
    }

    /** The lock section of insert_download_job and transcode_start. */
    method InsertJob(jobId: JobId, spec: Spec, generation: nat) returns (reply: Reply)
      requires generation in drawn
      modifies this
      ensures (View(), reply) == Apply(old(View()), Insert(jobId, spec, generation))
    {
      drawn := drawn - {generation};
      if jobId in jobs { return Exists; }
      jobs := jobs[jobId := Job(generation, true, spec, generation)];
      workers := workers[generation := Worker(jobId, generation)];
      registered := registered + {generation};
      reply := Done;
    }

    method DownloadPause(jobId: JobId) returns (reply: Reply)
      modifies this
      ensures (View(), reply) == Apply(old(View()), Pause(jobId))
    {
      if jobId !in jobs { return Done; }
      var job := jobs[jobId];
      if !job.spec.Download? { return WrongKind; }
      if !job.running { return Done; }
      var generation := Generation();
      jobs := jobs[jobId := job.(generation := generation, running := false)];
      reply := Done;
    }

    method DownloadResume(jobId: JobId) returns (reply: Reply)
      modifies this
      ensures (View(), reply) == Apply(old(View()), Resume(jobId))
    {
      if jobId !in jobs { return NotFound; }
      var job := jobs[jobId];
      if !job.spec.Download? { return WrongKind; }
      if job.running { return AlreadyRunning; }
      var generation := Generation();
      jobs := jobs[jobId := job.(generation := generation, running := true)];
      workers := workers[generation := Worker(jobId, job.registration)];
      reply := Done;
    }

    /** The lock section of download_cancel and transcode_cancel. */
    method TakeCanceled(jobId: JobId, spec: Spec) returns (reply: Reply)
      modifies this
      ensures (View(), reply) == Apply(old(View()), Cancel(jobId, spec))
    {
      if jobId !in jobs { return Done; }
      if jobs[jobId].spec != spec { return WrongKind; }
      owed := owed + multiset{jobs[jobId].registration};
      jobs := jobs - {jobId};
      reply := Done;
    }

    /** The lock section of download_force_stop. */
    method TakeForced(jobId: JobId) returns (reply: Reply)
      modifies this
      ensures (View(), reply) == Apply(old(View()), ForceStop(jobId))
    {
      if jobId in jobs {
        owed := owed + multiset{jobs[jobId].registration};
        jobs := jobs - {jobId};
      }
      reply := Done;
    }

    /** The lock section of finish_if_current; `shouldEmit` is its result. */
    method FinishCurrent(jobId: JobId, generation: nat) returns (shouldEmit: bool)
      modifies this
      ensures View() == Step(old(View()), FinishIfCurrent(jobId, generation))
      ensures shouldEmit <==> old(jobId in jobs && jobs[jobId].generation == generation)
    {
      shouldEmit := jobId in jobs && jobs[jobId].generation == generation;
      if shouldEmit {
        owed := owed + multiset{jobs[jobId].registration};
        jobs := jobs - {jobId};
      }
    }

    /** The lock section of emit_progress_if_current. */
    method ProgressIsCurrent(jobId: JobId, generation: nat) returns (current: bool)
      modifies this`checked
      ensures View() == Step(old(View()), CheckProgress(jobId, generation))
      ensures current <==> Current(old(View()), jobId, generation)
    {
      current := jobId in jobs && jobs[jobId].generation == generation;
      if current { checked := checked + multiset{Progress(jobId, generation)}; }
    }
  }

  // ---------------------------------------------------------------------------
  // The invariant

  /** `r` belongs to an entry still in the registry. */
  ghost predicate Registered(s: State, r: nat) {
    exists id :: id in s.jobs && s.jobs[id].registration == r
  }

  ghost predicate Emitted(s: State, r: nat) {
    exists i :: 0 <= i < |s.terminal| && s.terminal[i].registration == r
  }

  ghost predicate JobInv(s: State, id: JobId)
    requires id in s.jobs
  {
    var job := s.jobs[id];
    && job.registration in s.registered
    && job.registration <= job.generation <= s.nextGeneration
    && job.registration !in s.owed
    && !Emitted(s, job.registration)
    && (forall other :: other in s.jobs && other != id ==> s.jobs[other].registration != job.registration)
    && (job.running <==> job.generation in s.workers)
    && (job.generation in s.workers ==> s.workers[job.generation] == Worker(id, job.registration))
  }

  /** Every registration is in the registry, owed its terminal event or past it. */
  ghost predicate Accounted(s: State) {
    && (forall r :: r in s.registered ==>
          (r <= s.nextGeneration && (Registered(s, r) || r in s.owed || Emitted(s, r))))
    && (forall r :: r in s.owed ==> s.owed[r] == 1 && r in s.registered && !Emitted(s, r))
    && (forall i :: 0 <= i < |s.terminal| ==> s.terminal[i].registration in s.registered)
    && (forall i, j :: 0 <= i < j < |s.terminal| ==> s.terminal[i].registration != s.terminal[j].registration)
    && (forall g :: g in s.workers ==> g <= s.nextGeneration)
  }

  /** A generation drawn for an insertion is used nowhere yet. */
  ghost predicate Unused(s: State, g: nat) {
    && g <= s.nextGeneration && g !in s.workers && g !in s.registered
    && (forall id :: id in s.jobs ==> s.jobs[id].generation != g)
  }

  ghost predicate Inv(s: State) {
    && (forall id :: id in s.jobs ==> JobInv(s, id))
    && Accounted(s)
    && (forall g :: g in s.drawn ==> Unused(s, g))
  }

  lemma InsertKeepsAccounted(s: State, id: JobId, spec: Spec, g: nat)
    requires Accounted(s) && Unused(s, g)
    ensures Accounted(InsertJob(s, id, spec, g))
  {
    var t := InsertJob(s, id, spec, g);
    assert forall r :: Emitted(t, r) == Emitted(s, r);
    forall r | r in t.registered ensures Registered(t, r) || r in t.owed || Emitted(t, r) {
      if r in s.registered && Registered(s, r) {
        var j :| j in s.jobs && s.jobs[j].registration == r;
        assert j in t.jobs && t.jobs[j].registration == r;
      } else if r !in s.registered {
        assert t.jobs[id].registration == r;
      }
    }
  }

  lemma InsertKeepsJob(s: State, id: JobId, spec: Spec, g: nat, j: JobId)
    requires Accounted(s) && Unused(s, g)
    requires (j in s.jobs && JobInv(s, j)) || (j == id && j !in s.jobs)
    requires forall k :: k in s.jobs ==> s.jobs[k].registration in s.registered
    ensures JobInv(InsertJob(s, id, spec, g), j)
  {
    var t := InsertJob(s, id, spec, g);
    assert forall r :: Emitted(t, r) == Emitted(s, r);
  }

  lemma InsertKeepsInv(s: State, id: JobId, spec: Spec, g: nat)
    requires Inv(s) && g in s.drawn
    ensures Inv(InsertJob(s, id, spec, g))
  {
    var t := InsertJob(s, id, spec, g);
    assert Unused(s, g);
    InsertKeepsAccounted(s, id, spec, g);
    forall k | k in s.jobs ensures s.jobs[k].registration in s.registered { assert JobInv(s, k); }
    forall j | j in t.jobs ensures JobInv(t, j) {
      if j in s.jobs { assert JobInv(s, j); }
      InsertKeepsJob(s, id, spec, g, j);
    }
    forall h | h in t.drawn ensures Unused(t, h) { assert Unused(s, h); }
  }

  lemma DrawKeepsInv(s: State)
    requires Inv(s)
    ensures Inv(Step(s, Draw))
  {
    var t := Step(s, Draw);
    assert forall r :: Emitted(t, r) == Emitted(s, r) && Registered(t, r) == Registered(s, r);
    forall j | j in t.jobs ensures JobInv(t, j) { assert JobInv(s, j); }
    forall h | h in t.drawn ensures Unused(t, h) {
      if h in s.drawn { assert Unused(s, h); }
      forall id | id in s.jobs ensures s.jobs[id].generation <= s.nextGeneration { assert JobInv(s, id); }
    }
  }

  /** Pause and resume renumber one entry and keep its registration. */
  lemma RenumberKeepsAccounted(s: State, t: State, id: JobId)
    requires Accounted(s) && id in s.jobs
    requires t == PauseJob(s, id) || t == ResumeJob(s, id)
    ensures Accounted(t)
  {
    assert forall r :: Emitted(t, r) == Emitted(s, r);
    forall r | r in t.registered ensures Registered(t, r) || r in t.owed || Emitted(t, r) {
      if Registered(s, r) {
        var j :| j in s.jobs && s.jobs[j].registration == r;
        assert j in t.jobs && t.jobs[j].registration == r;
      }
    }
  }

  lemma RenumberKeepsJob(s: State, t: State, id: JobId, j: JobId)
    requires id in s.jobs && j in s.jobs && JobInv(s, id) && JobInv(s, j)
    requires t == PauseJob(s, id) || t == ResumeJob(s, id)
    requires forall g :: g in s.workers ==> g <= s.nextGeneration
    ensures JobInv(t, j)
  {
    assert Emitted(t, s.jobs[j].registration) == Emitted(s, s.jobs[j].registration);
  }

  lemma RenumberKeepsInv(s: State, t: State, id: JobId)
    requires Inv(s) && id in s.jobs
    requires t == PauseJob(s, id) || t == ResumeJob(s, id)
    ensures Inv(t)
  {
    RenumberKeepsAccounted(s, t, id);
    forall j | j in t.jobs ensures JobInv(t, j) { RenumberKeepsJob(s, t, id, j); }
    forall h | h in t.drawn ensures Unused(t, h) { assert Unused(s, h); }
  }

  lemma RemoveKeepsAccounted(s: State, id: JobId)
    requires Accounted(s) && id in s.jobs && JobInv(s, id)
    ensures Accounted(Remove(s, id))
  {
    var t := Remove(s, id);
    assert forall r :: Emitted(t, r) == Emitted(s, r);
    forall r | r in t.registered ensures Registered(t, r) || r in t.owed || Emitted(t, r) {
      if Registered(s, r) && r != s.jobs[id].registration {
        var j :| j in s.jobs && s.jobs[j].registration == r;
        assert j in t.jobs && t.jobs[j].registration == r;
      }
    }
  }

  lemma RemoveKeepsInv(s: State, id: JobId)
    requires Inv(s) && id in s.jobs
    ensures Inv(Remove(s, id))
  {
    hide Accounted;
    var t := Remove(s, id);
    assert JobInv(s, id);
    RemoveKeepsAccounted(s, id);
    assert forall r :: Emitted(t, r) == Emitted(s, r);
    forall j | j in t.jobs ensures JobInv(t, j) { assert JobInv(s, j); }
    forall h | h in t.drawn ensures Unused(t, h) { assert Unused(s, h); }
  }

  lemma EmittedOnce(s: State, t: State, r: nat, phase: Phase, q: nat)
    requires t.terminal == s.terminal + [Terminal(r, phase)]
    ensures Emitted(t, q) <==> Emitted(s, q) || q == r
  {
    assert t.terminal[|s.terminal|].registration == r;
    if Emitted(s, q) {
      var i :| 0 <= i < |s.terminal| && s.terminal[i].registration == q;
      assert t.terminal[i].registration == q;
    }
  }

  lemma EmitKeepsInv(s: State, r: nat, phase: Phase)
    requires Inv(s) && r in s.owed
    ensures Inv(Step(s, EmitTerminal(r, phase)))
  {
    var t := Step(s, EmitTerminal(r, phase));
    forall q ensures Emitted(t, q) <==> Emitted(s, q) || q == r { EmittedOnce(s, t, r, phase, q); }
    forall j | j in t.jobs ensures JobInv(t, j) { assert JobInv(s, j); }
    assert forall q :: Registered(t, q) <==> Registered(s, q);
    forall h | h in t.drawn ensures Unused(t, h) { assert Unused(s, h); }
  }

  lemma StepKeepsInv(s: State, e: Event)
    requires Inv(s)
    ensures Inv(Step(s, e))
  {
    hide Inv, Remove, InsertJob, PauseJob, ResumeJob;
    var t := Step(s, e);
    match e
    case Draw => DrawKeepsInv(s);
    case Insert(id, spec, g) => if g in s.drawn { InsertKeepsInv(s, id, spec, g); }
    case Pause(id) => if t != s { RenumberKeepsInv(s, t, id); }
    case Resume(id) => if t != s { RenumberKeepsInv(s, t, id); }
    case Cancel(id, _) => if t != s { RemoveKeepsInv(s, id); }
    case ForceStop(id) => if t != s { RemoveKeepsInv(s, id); }
    case FinishIfCurrent(id, _) => if t != s { RemoveKeepsInv(s, id); }
    case EmitTerminal(r, phase) => if t != s { EmitKeepsInv(s, r, phase); }
    case CheckProgress(_, _) => ProgressKeepsInv(s, t);
    case EmitProgress(_) => ProgressKeepsInv(s, t);
  }

  lemma ProgressKeepsInv(s: State, t: State)
    requires Inv(s) && t == s.(checked := t.checked, progress := t.progress)
    ensures Inv(t)
  {
    assert forall r :: Emitted(t, r) == Emitted(s, r) && Registered(t, r) == Registered(s, r);
    forall j | j in t.jobs ensures JobInv(t, j) { assert JobInv(s, j); }
    forall h | h in t.drawn ensures Unused(t, h) { assert Unused(s, h); }
  }

  lemma {:induction false} RunKeepsInv(s: State, trace: seq<Event>)
    requires Inv(s)
    ensures Inv(Run(s, trace))
    decreases |trace|
  {
    if trace != [] {
      StepKeepsInv(s, trace[0]);
      RunKeepsInv(Step(s, trace[0]), trace[1..]);
    }
  }

  lemma ReachableInv(trace: seq<Event>)
    ensures Inv(Run(INITIAL, trace))
  {
    RunKeepsInv(INITIAL, trace);
  }

  // ---------------------------------------------------------------------------
  // Main results

  /**
    In every interleaving each registration gets at most one terminal event, and none is lost:
    a registration without its event is either still in the registry or owed exactly one.
   */
  lemma OneTerminalEvent(trace: seq<Event>, r: nat)
    requires r in Run(INITIAL, trace).registered
    ensures var s := Run(INITIAL, trace);
            && (forall i, j :: 0 <= i < j < |s.terminal| ==> s.terminal[i].registration != s.terminal[j].registration)
            && (Registered(s, r) ==> s.owed[r] == 0 && !Emitted(s, r))
            && (!Registered(s, r) ==> if Emitted(s, r) then s.owed[r] == 0 else s.owed[r] == 1)
  {
    ReachableInv(trace);
    var s := Run(INITIAL, trace);
    if Registered(s, r) {
      var id :| id in s.jobs && s.jobs[id].registration == r;
      assert JobInv(s, id);
    }
  }

  /** A terminal event is owed only by the step that takes its registration out of the registry. */
  lemma OwedByRemoval(s: State, e: Event, r: nat)
    requires Inv(s) && s.owed[r] < Step(s, e).owed[r]
    ensures Registered(s, r) && !Registered(Step(s, e), r)
  {
    var t := Step(s, e);
    var id := e.jobId;
    assert JobInv(s, id) && s.jobs[id].registration == r;
    forall j | j in t.jobs ensures t.jobs[j].registration != r { assert JobInv(s, j); }
  }

  /**
    A worker's completion can only remove the running registration that spawned it: never a
    paused job, never a later registration of the same id.
   */
  lemma WorkerRemovesItsOwn(trace: seq<Event>, generation: nat)
    requires generation in Run(INITIAL, trace).workers
    ensures var s := Run(INITIAL, trace);
            var w := s.workers[generation];
            Step(s, FinishIfCurrent(w.jobId, generation)) != s ==>
              && w.jobId in s.jobs && s.jobs[w.jobId].running
              && s.jobs[w.jobId].registration == w.registration
  {
    ReachableInv(trace);
    var s := Run(INITIAL, trace);
    var w := s.workers[generation];
    if w.jobId in s.jobs { assert JobInv(s, w.jobId); }
  }

  /** A generation that was fetched, is not waiting for an insertion and is not the job's own. */
  predicate Stale(s: State, id: JobId, g: nat) {
    g <= s.nextGeneration && g !in s.drawn && !Current(s, id, g)
  }

  lemma StepStaysStale(s: State, e: Event, id: JobId, g: nat)
    requires Stale(s, id, g)
    ensures Stale(Step(s, e), id, g)
  {
  }

  /** Generations are never reused: once stale, a generation is stale forever. */
  lemma {:induction false} StaleForever(s: State, trace: seq<Event>, id: JobId, g: nat)
    requires Stale(s, id, g)
    ensures Stale(Run(s, trace), id, g)
    decreases |trace|
  {
    if trace != [] {
      StepStaysStale(s, trace[0], id, g);
      StaleForever(Step(s, trace[0]), trace[1..], id, g);
    }
  }

  /** Pausing a running download makes its worker's generation stale. */
  lemma PauseMakesStale(s: State, id: JobId, g: nat)
    requires Inv(s) && Current(s, id, g) && s.jobs[id].running && s.jobs[id].spec.Download?
    ensures Stale(Step(s, Pause(id)), id, g)
  {
    assert JobInv(s, id);
    assert g in s.drawn ==> Unused(s, g);
  }

  lemma StaleIsSilent(s: State, id: JobId, g: nat)
    requires Stale(s, id, g)
    ensures Step(s, FinishIfCurrent(id, g)) == s && Step(s, CheckProgress(id, g)) == s
  {
  }

  /**
    After a pause, whatever runs next, the paused worker's completion changes nothing and no
    further progress event of it can pass its check.
   */
  lemma PauseSilencesWorker(before: seq<Event>, after: seq<Event>, id: JobId, g: nat)
    requires var s := Run(INITIAL, before);
             Current(s, id, g) && s.jobs[id].running && s.jobs[id].spec.Download?
    ensures var t := Run(Step(Run(INITIAL, before), Pause(id)), after);
            && Step(t, FinishIfCurrent(id, g)) == t
            && Step(t, CheckProgress(id, g)) == t
  {
    hide Inv, Step, Stale;
    ReachableInv(before);
    PauseMakesStale(Run(INITIAL, before), id, g);
    StaleForever(Step(Run(INITIAL, before), Pause(id)), after, id, g);
    StaleIsSilent(Run(Step(Run(INITIAL, before), Pause(id)), after), id, g);
  }

  lemma RunFirst(s: State, a: Event, rest: seq<Event>)
    ensures Run(s, [a] + rest) == Run(Step(s, a), rest)
  {
    hide Step;
    assert ([a] + rest)[1..] == rest;
  }

  lemma RunThree(s: State, a: Event, b: Event, c: Event)
    ensures Run(s, [a, b, c]) == Step(Step(Step(s, a), b), c)
  {
    hide Step;
    RunFirst(s, a, [b, c]);
    RunFirst(Step(s, a), b, [c]);
    RunFirst(Step(Step(s, a), b), c, []);
  }

  lemma FirstInserted(id: JobId)
    ensures var s := Step(Step(INITIAL, Draw), Insert(id, Download, 1));
            s.jobs == map[id := Job(1, true, Download, 1)] && s.nextGeneration == 1 && s.progress == []
  {
  }

  lemma CheckedComesOut(s: State, id: JobId, g: nat)
    requires Current(s, id, g) && s.jobs[id].running && s.jobs[id].spec.Download? && g <= s.nextGeneration
    ensures var paused := Step(Step(s, CheckProgress(id, g)), Pause(id));
            && !Current(paused, id, g)
            && Step(paused, EmitProgress(Progress(id, g))).progress == s.progress + [Progress(id, g)]
  {
  }

  /**
    What does not hold: a progress event checked before the pause may still be emitted after it,
    because the check is made under the lock and the emission is not.
   */
  lemma ProgressAfterPause(id: JobId)
    ensures var s := Run(INITIAL, [Draw, Insert(id, Download, 1), CheckProgress(id, 1)]);
            var paused := Step(s, Pause(id));
            && !Current(paused, id, 1)
            && Step(paused, EmitProgress(Progress(id, 1))).progress == [Progress(id, 1)]
  {
    hide Run;
    RunThree(INITIAL, Draw, Insert(id, Download, 1), CheckProgress(id, 1));
    var inserted := Step(Step(INITIAL, Draw), Insert(id, Download, 1));
    FirstInserted(id);
    CheckedComesOut(inserted, id, 1);
    assert [] + [Progress(id, 1)] == [Progress(id, 1)];
  }

  // --- how many stale progress events come out ---

  /** How often a progress event has come out. */
  function Out(s: State, p: Progress): nat { multiset(s.progress)[p] }

  lemma OtherKeepsProgress(s: State, e: Event)
    requires !e.CheckProgress? && !e.EmitProgress?
    ensures Step(s, e).checked == s.checked && Step(s, e).progress == s.progress
  {
  }

  lemma OutAppend(progress: seq<Progress>, p: Progress, q: Progress)
    ensures multiset(progress + [q])[p] == multiset(progress)[p] + if p == q then 1 else 0
  {
  }

  lemma StepConservesProgress(s: State, e: Event, p: Progress)
    requires Stale(s, p.jobId, p.generation)
    ensures Step(s, e).checked[p] + Out(Step(s, e), p) == s.checked[p] + Out(s, p)
  {
    match e
    case CheckProgress(_, _) =>
    case EmitProgress(q) => OutAppend(s.progress, p, q);
    case _ => OtherKeepsProgress(s, e);
  }

  /** Once its generation is stale, a progress event that comes out is one already checked. */
  lemma {:induction false} StaleProgressConserved(s: State, trace: seq<Event>, p: Progress)
    requires Stale(s, p.jobId, p.generation)
    ensures Run(s, trace).checked[p] + Out(Run(s, trace), p) == s.checked[p] + Out(s, p)
    decreases |trace|
  {
    if trace != [] {
      StepConservesProgress(s, trace[0], p);
      StepStaysStale(s, trace[0], p.jobId, p.generation);
      StaleProgressConserved(Step(s, trace[0]), trace[1..], p);
    }
  }

  /** Emitting `k` checked events one after the other. */
  lemma {:induction false} EmitMany(s: State, p: Progress, k: nat) returns (trace: seq<Event>)
    requires k <= s.checked[p]
    ensures Out(Run(s, trace), p) == Out(s, p) + k
    decreases k
  {
    if k == 0 {
      trace := [];
    } else {
      var t := Step(s, EmitProgress(p));
      var rest := EmitMany(t, p, k - 1);
      trace := [EmitProgress(p)] + rest;
      assert trace[1..] == rest;
    }
  }

  /**
    Exactly what a pause leaves to come: after it some continuation brings out `k` more of the
    paused worker's progress events if and only if `k` of them had passed their check before it.
   */
  lemma ProgressAfterPauseExactly(before: seq<Event>, id: JobId, g: nat, k: nat)
    requires var s := Run(INITIAL, before);
             Current(s, id, g) && s.jobs[id].running && s.jobs[id].spec.Download?
    ensures var s := Run(INITIAL, before);
            var paused, p := Step(s, Pause(id)), Progress(id, g);
            (exists after :: Out(Run(paused, after), p) == Out(s, p) + k) <==> k <= s.checked[p]
  {
    var s := Run(INITIAL, before);
    var paused, p := Step(s, Pause(id)), Progress(id, g);
    ReachableInv(before);
    PauseMakesStale(s, id, g);
    if k <= s.checked[p] {
      var after := EmitMany(paused, p, k);
    }
    forall after ensures Out(Run(paused, after), p) <= Out(s, p) + s.checked[p] {
      StaleProgressConserved(paused, after, p);
    }
  }

  // --- what removing, pausing and running achieve ---

  /** Registration `r` was made and its entry is gone. */
  ghost predicate Gone(s: State, r: nat) {
    r in s.registered && !Registered(s, r)
  }

  lemma StepStaysGone(s: State, e: Event, r: nat)
    requires Inv(s) && Gone(s, r)
    ensures Gone(Step(s, e), r)
  {
    hide Inv;
    var t := Step(s, e);
    if e.Insert? && e.generation in s.drawn { DrawnIsUnused(s, e.generation); }
    forall id | id in t.jobs ensures t.jobs[id].registration != r {
      if id in s.jobs { assert s.jobs[id].registration != r; }
    }
  }

  lemma DrawnIsUnused(s: State, g: nat)
    requires Inv(s) && g in s.drawn
    ensures g !in s.registered
  {
    assert Unused(s, g);
  }

  lemma {:induction false} RunStaysGone(s: State, trace: seq<Event>, r: nat)
    requires Inv(s) && Gone(s, r)
    ensures Inv(Run(s, trace)) && Gone(Run(s, trace), r)
    decreases |trace|
  {
    hide Inv, Gone, Step;
    if trace != [] {
      StepKeepsInv(s, trace[0]);
      StepStaysGone(s, trace[0], r);
      RunStaysGone(Step(s, trace[0]), trace[1..], r);
    }
  }

  function Emissions(terminal: seq<Terminal>, r: nat): nat {
    if terminal == [] then 0
    else Emissions(terminal[..|terminal| - 1], r) + if terminal[|terminal| - 1].registration == r then 1 else 0
  }

  lemma {:induction false} EmittedAtMostOnce(terminal: seq<Terminal>, r: nat)
    requires forall i, j :: 0 <= i < j < |terminal| ==> terminal[i].registration != terminal[j].registration
    ensures Emissions(terminal, r) <= 1
    ensures Emissions(terminal, r) == 1 <==> exists i :: 0 <= i < |terminal| && terminal[i].registration == r
  {
    if terminal != [] {
      var n := |terminal| - 1;
      EmittedAtMostOnce(terminal[..n], r);
      if terminal[n].registration == r {
        assert forall i :: 0 <= i < n ==> terminal[..n][i].registration != r;
      } else if Emissions(terminal[..n], r) == 1 {
        var i :| 0 <= i < n && terminal[..n][i].registration == r;
        assert terminal[i].registration == r;
      } else {
        assert forall i :: 0 <= i < n ==> terminal[i] == terminal[..n][i];
      }
    }
  }

  lemma GoneIsSettled(s: State, r: nat)
    requires Inv(s) && Gone(s, r)
    ensures s.owed[r] + Emissions(s.terminal, r) == 1
  {
    EmittedAtMostOnce(s.terminal, r);
  }

  /** The events that end job `id`: its own kind's cancel, a forced stop, and its worker's completion. */
  predicate Ends(s: State, e: Event, id: JobId)
    requires id in s.jobs
  {
    e == Cancel(id, s.jobs[id].spec) || e == ForceStop(id) || e == FinishIfCurrent(id, s.jobs[id].generation)
  }

  lemma EndRemoves(s: State, e: Event, id: JobId)
    requires Inv(s) && id in s.jobs && Ends(s, e, id)
    ensures Apply(s, e).1 == Done && id !in Step(s, e).jobs
    ensures Gone(Step(s, e), s.jobs[id].registration) && Stale(Step(s, e), id, s.jobs[id].generation)
  {
    assert JobInv(s, id);
    assert s.jobs[id].generation in s.drawn ==> Unused(s, s.jobs[id].generation);
    forall j | j in s.jobs && j != id ensures s.jobs[j].registration != s.jobs[id].registration { assert JobInv(s, j); }
  }

  /**
    Canceling a job under its own kind, stopping it by force, and its worker's completion each
    really end it: whatever runs next, its registration never comes back, exactly one terminal
    event of it is owed or has come out, and its worker can neither complete nor pass a check.
   */
  lemma EndedForGood(before: seq<Event>, e: Event, after: seq<Event>, id: JobId)
    requires id in Run(INITIAL, before).jobs && Ends(Run(INITIAL, before), e, id)
    ensures var s := Run(INITIAL, before);
            var r, g := s.jobs[id].registration, s.jobs[id].generation;
            var t := Run(Step(s, e), after);
            && Apply(s, e).1 == Done && id !in Step(s, e).jobs
            && !Registered(t, r) && t.owed[r] + Emissions(t.terminal, r) == 1
            && Step(t, FinishIfCurrent(id, g)) == t && Step(t, CheckProgress(id, g)) == t
  {
    hide Inv, Stale, Step, Gone, Emissions;
    var s := Run(INITIAL, before);
    var r, g := s.jobs[id].registration, s.jobs[id].generation;
    ReachableInv(before);
    EndRemoves(s, e, id);
    StepKeepsInv(s, e);
    RunStaysGone(Step(s, e), after, r);
    var t := Run(Step(s, e), after);
    GoneIsSettled(t, r);
    GoneIsOut(t, r);
    StaleForever(Step(s, e), after, id, g);
    StaleIsSilent(t, id, g);
  }

  lemma GoneIsOut(s: State, r: nat)
    requires Gone(s, r)
    ensures !Registered(s, r)
  {
  }

  /** An owed terminal event can be paid, once. */
  lemma OwedIsPaid(trace: seq<Event>, r: nat, phase: Phase)
    requires Run(INITIAL, trace).owed[r] > 0
    ensures var s := Run(INITIAL, trace);
            var t := Step(s, EmitTerminal(r, phase));
            t.owed[r] == 0 && t.terminal == s.terminal + [Terminal(r, phase)]
  {
    ReachableInv(trace);
  }

  /** Job `id` runs under generation `g`, and its worker is the one spawned for it. */
  ghost predicate Running(s: State, id: JobId, g: nat) {
    && Current(s, id, g) && s.jobs[id].running
    && g in s.workers && s.workers[g] == Worker(id, s.jobs[id].registration)
  }

  /** Inserting a free id and resuming a paused download leave the job running under a fresh generation. */
  lemma RunningAfter(before: seq<Event>, id: JobId, spec: Spec, g: nat)
    ensures var s := Run(INITIAL, before);
            && (id !in s.jobs && g in s.drawn ==>
                  var t := Step(s, Insert(id, spec, g));
                  Running(t, id, g) && t.jobs[id].registration == g && t.jobs[id].spec == spec)
            && (id in s.jobs && s.jobs[id].spec.Download? && !s.jobs[id].running ==>
                  var t, n := Step(s, Resume(id)), s.nextGeneration + 1;
                  Running(t, id, n) && t.jobs[id].registration == s.jobs[id].registration
                  && t.jobs[id].spec == s.jobs[id].spec && n !in s.workers)
  {
    ReachableInv(before);
  }

  /** A pause only takes the worker away: the job stays, under its registration, and can be resumed. */
  lemma PausedStays(before: seq<Event>, id: JobId)
    requires id in Run(INITIAL, before).jobs && Run(INITIAL, before).jobs[id].spec.Download?
    ensures var s := Run(INITIAL, before);
            var t := Step(s, Pause(id));
            && id in t.jobs && !t.jobs[id].running && t.owed == s.owed
            && t.jobs[id].registration == s.jobs[id].registration && t.jobs[id].spec == s.jobs[id].spec
            && Apply(t, Resume(id)).1 == Done
  {
  }

  /** A running job's worker gets its progress and its completion through. */
  lemma RunningGetsThrough(before: seq<Event>, id: JobId, g: nat)
    requires Running(Run(INITIAL, before), id, g)
    ensures var s := Run(INITIAL, before);
            var r, p := s.jobs[id].registration, Progress(id, g);
            && Step(Step(s, CheckProgress(id, g)), EmitProgress(p)).progress == s.progress + [p]
            && id !in Step(s, FinishIfCurrent(id, g)).jobs && Step(s, FinishIfCurrent(id, g)).owed[r] == 1
  {
    ReachableInv(before);
    assert JobInv(Run(INITIAL, before), id);
  }

  /**
    A request for the wrong kind, for no job, or for what is already so changes nothing, and a
    taken id stays with its job.
   */
  lemma RefusedChangesNothing(s: State, id: JobId, spec: Spec, g: nat)
    ensures id !in s.jobs ==> Apply(s, Cancel(id, spec)) == Apply(s, Pause(id)) == Apply(s, ForceStop(id)) == (s, Done)
    ensures id !in s.jobs ==> Apply(s, Resume(id)) == (s, NotFound)
    ensures id in s.jobs && s.jobs[id].spec != spec ==> Apply(s, Cancel(id, spec)) == (s, WrongKind)
    ensures id in s.jobs && !s.jobs[id].spec.Download? ==>
              Apply(s, Pause(id)) == (s, WrongKind) && Apply(s, Resume(id)) == (s, WrongKind)
    ensures id in s.jobs && s.jobs[id].spec.Download? ==>
              if s.jobs[id].running then Apply(s, Resume(id)) == (s, AlreadyRunning)
              else Apply(s, Pause(id)) == (s, Done)
    ensures g in s.drawn ==>
              (Apply(s, Insert(id, spec, g)).1 == Exists <==> id in s.jobs)
              && (id in s.jobs ==> Step(s, Insert(id, spec, g)) == s.(drawn := s.drawn - {g}))
  {
  }
}
