/**
  The per-session HLS job registry (server/src/transcodeSession.ts).

  The code is single threaded and interleaves at every await, so each step below is one stretch
  of code between awaits. Any number of ensureJob calls, creations, reaps and child exits
  interleave; the file system, ffmpeg and the clock answer arbitrarily. The database pointer is
  not modelled.
 */
module TranscodeSession {
  import opened FiniteSets
  import opened Wrappers

  type Session = nat
  type Fingerprint = nat

  /** A registered job; its directory and its one ffmpeg child have fresh ids. */
  datatype Job = Job(child: nat, dir: nat, fingerprint: Fingerprint)

  datatype CreationPc =
    | Refused                        // over the cap: the promise is already rejected
    | MakingDir                      // awaiting mkdir and mkdtemp
    | Preparing(dir: nat)            // awaiting the probe and the subtitle placeholder
    | Discarding                     // spawn threw: awaiting the removal of the directory
    | Polling(dir: nat, child: nat)  // registered: waiting for the first segment
    | Aborting                       // failed or timed out: awaiting its kill
    | Settled(result: Option<nat>)   // the promise is settled, the finally has not run
    | Done(result: Option<nat>)      // the finally has removed the pending entry

  datatype Creation = Creation(session: Session, fingerprint: Fingerprint, pc: CreationPc)

  datatype RequestPc =
    | Entering                 // recorded, about to look at the jobs
    | Killing                  // awaiting the kill of a job with another fingerprint
    | Joining(creation: nat)   // will settle as this creation settles
    | Waiting(creation: nat)   // awaiting another fingerprint's creation, then starting over
    | Returned(dir: nat)
    | Threw

  datatype Request = Request(session: Session, fingerprint: Fingerprint, pc: RequestPc)

  datatype State = State(
    jobs: map<Session, Job>,
    pending: map<Session, nat>,       // the creation in flight, by session
    creations: seq<Creation>,
    requests: seq<Request>,
    signalled: set<nat>,              // children sent SIGTERM
    failed: set<nat>,                 // children that failed to run or exited abnormally
    spawned: seq<Session>,            // the session of every child ever spawned
    dirs: seq<Fingerprint>)           // the fingerprint every directory was made for

  datatype Event =
    | Ensure(session: Session, fingerprint: Fingerprint)
    | Killed(request: nat)                    // a request's kill finished
    | Deliver(request: nat)                   // a request's promise settled
    | MadeDir(creation: nat, ok: bool)
    | Spawn(creation: nat, outcome: Outcome)  // probe done: spawn
    | Discarded(creation: nat)
    | Poll(creation: nat, ready: bool, expired: bool)
    | Aborted(creation: nat)
    | Finally(creation: nat)
    | Reap(session: Session)                  // reap and stop
    | ChildFails(child: nat)

  datatype Outcome = Spawned | SpawnThrew | PrepareThrew

  const INITIAL: State := State(map[], map[], [], [], {}, {}, [], [])

  /** kill up to its await: forget the job and signal its child. */
  function Kill(s: State, session: Session): State {
    if session !in s.jobs then s
    else s.(jobs := s.jobs - {session}, signalled := s.signalled + {s.jobs[session].child})
  }

  function SetRequest(s: State, r: nat, pc: RequestPc): State
    requires r < |s.requests|
  {
    s.(requests := s.requests[r := s.requests[r].(pc := pc)])
  }

  function SetCreation(s: State, c: nat, pc: CreationPc): State
    requires c < |s.creations|
  {
    s.(creations := s.creations[c := s.creations[c].(pc := pc)])
  }

  /** createJob up to its first await: the cap counts jobs and creations in flight. */
  function Create(max: nat, s: State, session: Session, fingerprint: Fingerprint): State {
    var pc := if |s.jobs| + |s.pending| >= max then Refused else MakingDir;
    s.(creations := s.creations + [Creation(session, fingerprint, pc)],
       pending := s.pending[session := |s.creations|])
  }

  /** The rest of ensureJob: join, wait for or start a creation. The job map is not read again. */
  function Proceed(max: nat, s: State, r: nat): State
    requires r < |s.requests|
  {
    var q := s.requests[r];
    if q.session in s.pending then
      var c := s.pending[q.session];
      if c < |s.creations| && s.creations[c].fingerprint == q.fingerprint
      then SetRequest(s, r, Joining(c)) else SetRequest(s, r, Waiting(c))
    else SetRequest(Create(max, s, q.session, q.fingerprint), r, Joining(|s.creations|))
  }

  /** ensureJob from its start, for a request already recorded. */
  function Enter(max: nat, s: State, r: nat): State
    requires r < |s.requests|
  {
    var q := s.requests[r];
    if q.session in s.jobs then
      if s.jobs[q.session].fingerprint == q.fingerprint
      then SetRequest(s, r, Returned(s.jobs[q.session].dir))
      else SetRequest(Kill(s, q.session), r, Killing)
    else Proceed(max, s, r)
  }

  /** spawnHls succeeded: register the job. */
  function Register(s: State, c: nat): State
    requires c < |s.creations| && s.creations[c].pc.Preparing?
  {
    var k := s.creations[c];
    SetCreation(s, c, Polling(k.pc.dir, |s.spawned|))
      .(jobs := s.jobs[k.session := Job(|s.spawned|, k.pc.dir, k.fingerprint)],
        spawned := s.spawned + [k.session])
  }

  /** The next stretch of creation `c`. */
  function CreationStep(s: State, c: nat, e: Event): State
    requires c < |s.creations|
  {
    var k := s.creations[c];
    match e
    case MadeDir(_, ok) =>
      if !k.pc.MakingDir? then s
      else if ok then SetCreation(s, c, Preparing(|s.dirs|)).(dirs := s.dirs + [k.fingerprint])
      else SetCreation(s, c, Settled(None))
    case Spawn(_, outcome) =>
      if !k.pc.Preparing? then s
      else (match outcome
            case Spawned => Register(s, c)
            case SpawnThrew => SetCreation(s, c, Discarding)
            case PrepareThrew => SetCreation(s, c, Settled(None)))
    case Discarded(_) => if k.pc.Discarding? then SetCreation(s, c, Settled(None)) else s
    case Poll(_, ready, expired) =>
      if !k.pc.Polling? then s
      else if !expired && ready then SetCreation(s, c, Settled(Some(k.pc.dir)))
      else if expired || k.pc.child in s.failed then SetCreation(Kill(s, k.session), c, Aborting)
      else s
    case Aborted(_) => if k.pc.Aborting? then SetCreation(s, c, Settled(None)) else s
    case Finally(_) =>
      if k.pc.Settled? then SetCreation(s, c, Done(k.pc.result)).(pending := s.pending - {k.session})
      else if k.pc.Refused? then SetCreation(s, c, Done(None)).(pending := s.pending - {k.session})
      else s
    case _ => s
  }

  /** The next stretch of request `r`. */
  function RequestStep(max: nat, s: State, r: nat, e: Event): State
    requires r < |s.requests|
  {
    var pc := s.requests[r].pc;
    match e
    case Killed(_) => if pc.Killing? then Proceed(max, s, r) else s
    case Deliver(_) =>
      if pc.Joining? && pc.creation < |s.creations| && s.creations[pc.creation].pc.Done? then
        var result := s.creations[pc.creation].pc.result;
        SetRequest(s, r, if result.Some? then Returned(result.value) else Threw)
      else if pc.Waiting? && pc.creation < |s.creations| && s.creations[pc.creation].pc.Done? then
        Enter(max, s, r)
      else s
    case _ => s
  }

  function Step(max: nat, s: State, e: Event): State {
    match e
    case Ensure(session, fp) =>
      Enter(max, s.(requests := s.requests + [Request(session, fp, Entering)]), |s.requests|)
    case Killed(r) => if r < |s.requests| then RequestStep(max, s, r, e) else s
    case Deliver(r) => if r < |s.requests| then RequestStep(max, s, r, e) else s
    case Reap(session) => Kill(s, session)
    case ChildFails(child) => s.(failed := s.failed + {child})
    case _ => if e.creation < |s.creations| then CreationStep(s, e.creation, e) else s
  }

  function Run(max: nat, s: State, trace: seq<Event>): State
    decreases |trace|
  {
    if trace == [] then s else Run(max, Step(max, s, trace[0]), trace[1..])
  }

  // ---------------------------------------------------------------------------
  // The invariant

  /** Directory `d` was made for `fingerprint`. */
  predicate MadeFor(dirs: seq<Fingerprint>, d: nat, fingerprint: Fingerprint) {
    d < |dirs| && dirs[d] == fingerprint
  }

  /** A registered job has its own directory and an unsignalled child of its session. */
  ghost predicate JobsOk(jobs: map<Session, Job>, dirs: seq<Fingerprint>, spawned: seq<Session>, signalled: set<nat>) {
    forall session :: session in jobs ==>
      var job := jobs[session];
      && MadeFor(dirs, job.dir, job.fingerprint)
      && job.child < |spawned| && spawned[job.child] == session
      && job.child !in signalled
  }

  predicate CreationOk(k: Creation, c: nat, pending: map<Session, nat>, dirs: seq<Fingerprint>) {
    && (!k.pc.Done? ==> k.session in pending && pending[k.session] == c)
    && (match k.pc
        case Preparing(d) => MadeFor(dirs, d, k.fingerprint)
        case Polling(d, child) => MadeFor(dirs, d, k.fingerprint)
        case Settled(result) => result.Some? ==> MadeFor(dirs, result.value, k.fingerprint)
        case Done(result) => result.Some? ==> MadeFor(dirs, result.value, k.fingerprint)
        case _ => true)
  }

  /** A creation not yet done is the one its session's pending entry names. */
  ghost predicate CreationsOk(creations: seq<Creation>, pending: map<Session, nat>, dirs: seq<Fingerprint>) {
    forall c :: 0 <= c < |creations| ==> CreationOk(creations[c], c, pending, dirs)
  }

  ghost predicate PendingOk(pending: map<Session, nat>, creations: seq<Creation>) {
    forall session :: session in pending ==>
      && pending[session] < |creations|
      && creations[pending[session]].session == session
      && !creations[pending[session]].pc.Done?
  }

  predicate RequestOk(q: Request, creations: seq<Creation>, dirs: seq<Fingerprint>) {
    match q.pc
    case Joining(c) => c < |creations| && creations[c].fingerprint == q.fingerprint
    case Returned(d) => MadeFor(dirs, d, q.fingerprint)
    case _ => true
  }

  ghost predicate RequestsOk(requests: seq<Request>, creations: seq<Creation>, dirs: seq<Fingerprint>) {
    forall r :: 0 <= r < |requests| ==> RequestOk(requests[r], creations, dirs)
  }

  /** Sessions being created: in flight and not refused. */
  function Creating(pending: map<Session, nat>, creations: seq<Creation>): set<Session> {
    set session | session in pending && pending[session] < |creations|
                  && !creations[pending[session]].pc.Refused?
  }

  /** The sessions that count towards the cap. */
  function Busy(s: State): set<Session> {
    s.jobs.Keys + Creating(s.pending, s.creations)
  }

  ghost predicate Inv(max: nat, s: State) {
    && JobsOk(s.jobs, s.dirs, s.spawned, s.signalled)
    && CreationsOk(s.creations, s.pending, s.dirs)
    && PendingOk(s.pending, s.creations)
    && RequestsOk(s.requests, s.creations, s.dirs)
    && |Busy(s)| <= max
    && SignalledOk(s.signalled, s.spawned)
  }

  ghost predicate SignalledOk(signalled: set<nat>, spawned: seq<Session>) {
    forall child :: child in signalled ==> child < |spawned|
  }

  lemma ThisCreationOk(max: nat, s: State, c: nat)
    requires Inv(max, s) && c < |s.creations|
    ensures CreationOk(s.creations[c], c, s.pending, s.dirs)
  {
  }

  lemma ThisRequestOk(max: nat, s: State, r: nat)
    requires Inv(max, s) && r < |s.requests|
    ensures RequestOk(s.requests[r], s.creations, s.dirs)
  {
  }

  lemma SetRequestKeepsInv(max: nat, s: State, r: nat, pc: RequestPc)
    requires Inv(max, s) && r < |s.requests|
    requires RequestOk(s.requests[r].(pc := pc), s.creations, s.dirs)
    ensures Inv(max, SetRequest(s, r, pc))
  {
  }

  lemma KillKeepsJobs(s: State, session: Session)
    requires JobsOk(s.jobs, s.dirs, s.spawned, s.signalled) && SignalledOk(s.signalled, s.spawned)
    ensures var t := Kill(s, session);
            JobsOk(t.jobs, t.dirs, t.spawned, t.signalled) && SignalledOk(t.signalled, t.spawned)
  {
  }

  lemma KillKeepsInv(max: nat, s: State, session: Session)
    requires Inv(max, s)
    ensures Inv(max, Kill(s, session))
  {
    KillKeepsJobs(s, session);
    SubsetSize(Busy(Kill(s, session)), Busy(s));
  }

  lemma RoomForOne(jobs: set<Session>, creating: set<Session>, pending: set<Session>, session: Session)
    requires creating <= pending
    ensures |jobs + (creating + {session})| <= |jobs| + |pending| + 1
  {
    SubsetSize(creating, pending);
  }

  /** Exactly an admitted creation joins the sessions being created. */
  lemma CreateCreating(s: State, session: Session, k: Creation)
    requires session !in s.pending && PendingOk(s.pending, s.creations)
    ensures Creating(s.pending[session := |s.creations|], s.creations + [k])
         == Creating(s.pending, s.creations) + (if k.pc.Refused? then {} else {session})
  {
  }

  /** The cap check leaves room for the session it admits. */
  lemma CreateKeepsCap(max: nat, s: State, session: Session, fingerprint: Fingerprint)
    requires |Busy(s)| <= max && session !in s.pending && PendingOk(s.pending, s.creations)
    ensures |Busy(Create(max, s, session, fingerprint))| <= max
  {
    var t := Create(max, s, session, fingerprint);
    CreateCreating(s, session, t.creations[|s.creations|]);
    RoomForOne(s.jobs.Keys, Creating(s.pending, s.creations), s.pending.Keys, session);
  }

  lemma AppendCreation(s: State, session: Session, k: Creation)
    requires session !in s.pending && k.session == session && (k.pc.Refused? || k.pc.MakingDir?)
    requires CreationsOk(s.creations, s.pending, s.dirs) && PendingOk(s.pending, s.creations)
    ensures var pending, creations := s.pending[session := |s.creations|], s.creations + [k];
            CreationsOk(creations, pending, s.dirs) && PendingOk(pending, creations)
  {
    var pending, creations := s.pending[session := |s.creations|], s.creations + [k];
    forall c | 0 <= c < |creations| ensures CreationOk(creations[c], c, pending, s.dirs) {
      if c < |s.creations| { assert CreationOk(s.creations[c], c, s.pending, s.dirs); }
    }
  }

  lemma AppendKeepsRequests(requests: seq<Request>, creations: seq<Creation>, k: Creation, dirs: seq<Fingerprint>)
    requires RequestsOk(requests, creations, dirs)
    ensures RequestsOk(requests, creations + [k], dirs)
  {
  }

  lemma CreateKeepsInv(max: nat, s: State, session: Session, fingerprint: Fingerprint)
    requires Inv(max, s) && session !in s.pending
    ensures Inv(max, Create(max, s, session, fingerprint))
  {
    CreateKeepsCap(max, s, session, fingerprint);
    var k := Creation(session, fingerprint, if |s.jobs| + |s.pending| >= max then Refused else MakingDir);
    AppendCreation(s, session, k);
    AppendKeepsRequests(s.requests, s.creations, k, s.dirs);
  }

  lemma ProceedKeepsInv(max: nat, s: State, r: nat)
    requires Inv(max, s) && r < |s.requests|
    ensures Inv(max, Proceed(max, s, r))
  {
    var q := s.requests[r];
    if q.session in s.pending {
      var c := s.pending[q.session];
      SetRequestKeepsInv(max, s, r, if s.creations[c].fingerprint == q.fingerprint then Joining(c) else Waiting(c));
    } else {
      CreateKeepsInv(max, s, q.session, q.fingerprint);
      SetRequestKeepsInv(max, Create(max, s, q.session, q.fingerprint), r, Joining(|s.creations|));
    }
  }

  lemma EnterKeepsInv(max: nat, s: State, r: nat)
    requires Inv(max, s) && r < |s.requests|
    ensures Inv(max, Enter(max, s, r))
  {
    var q := s.requests[r];
    if q.session !in s.jobs {
      ProceedKeepsInv(max, s, r);
    } else if s.jobs[q.session].fingerprint == q.fingerprint {
      SetRequestKeepsInv(max, s, r, Returned(s.jobs[q.session].dir));
    } else {
      KillKeepsInv(max, s, q.session);
      SetRequestKeepsInv(max, Kill(s, q.session), r, Killing);
    }
  }

  lemma UpdateKeepsRequests(requests: seq<Request>, creations: seq<Creation>, c: nat, pc: CreationPc,
                            dirs: seq<Fingerprint>)
    requires RequestsOk(requests, creations, dirs) && c < |creations|
    ensures RequestsOk(requests, creations[c := creations[c].(pc := pc)], dirs)
  {
  }

  lemma UpdateKeepsCreations(creations: seq<Creation>, pending: map<Session, nat>, dirs: seq<Fingerprint>,
                             c: nat, pc: CreationPc)
    requires CreationsOk(creations, pending, dirs) && PendingOk(pending, creations) && c < |creations|
    requires !creations[c].pc.Done? && !pc.Done? && !pc.Refused? && !creations[c].pc.Refused?
    requires CreationOk(creations[c].(pc := pc), c, pending, dirs)
    ensures var after := creations[c := creations[c].(pc := pc)];
            && CreationsOk(after, pending, dirs) && PendingOk(pending, after)
            && Creating(pending, after) == Creating(pending, creations)
  {
  }

  /** A creation moves on without leaving the pending map or changing whether it was refused. */
  lemma SetCreationKeepsInv(max: nat, s: State, c: nat, pc: CreationPc)
    requires Inv(max, s) && c < |s.creations|
    requires !s.creations[c].pc.Done? && !pc.Done? && !pc.Refused? && !s.creations[c].pc.Refused?
    requires CreationOk(s.creations[c].(pc := pc), c, s.pending, s.dirs)
    ensures Inv(max, SetCreation(s, c, pc))
  {
    hide JobsOk, CreationsOk, PendingOk, RequestsOk, SignalledOk, Creating;
    var t := SetCreation(s, c, pc);
    UpdateKeepsRequests(s.requests, s.creations, c, pc, s.dirs);
    UpdateKeepsCreations(s.creations, s.pending, s.dirs, c, pc);
    assert Busy(t) == Busy(s);
  }

  /** Making a directory keeps what is known of the older ones. */
  lemma MakeDirKeepsInv(max: nat, s: State, fingerprint: Fingerprint)
    requires Inv(max, s)
    ensures Inv(max, s.(dirs := s.dirs + [fingerprint]))
  {
    hide PendingOk, SignalledOk;
    var t := s.(dirs := s.dirs + [fingerprint]);
    assert Busy(t) == Busy(s);
    assert forall d, f :: MadeFor(s.dirs, d, f) ==> MadeFor(t.dirs, d, f);
    assert CreationsOk(t.creations, t.pending, t.dirs);
    assert RequestsOk(t.requests, t.creations, t.dirs);
  }

  lemma RegisterKeepsJobs(s: State, session: Session, job: Job)
    requires JobsOk(s.jobs, s.dirs, s.spawned, s.signalled) && SignalledOk(s.signalled, s.spawned)
    requires MadeFor(s.dirs, job.dir, job.fingerprint) && job.child == |s.spawned|
    ensures JobsOk(s.jobs[session := job], s.dirs, s.spawned + [session], s.signalled)
    ensures SignalledOk(s.signalled, s.spawned + [session])
  {
  }

  /** A registered session was already counted as being created. */
  lemma RegisterKeepsBusy(s: State, c: nat, job: Job)
    requires c < |s.creations| && CreationOk(s.creations[c], c, s.pending, s.dirs) && s.creations[c].pc.Polling?
    ensures Busy(s.(jobs := s.jobs[s.creations[c].session := job])) == Busy(s)
  {
    assert s.creations[c].session in Creating(s.pending, s.creations);
  }

  lemma RegisterKeepsInv(max: nat, s: State, c: nat)
    requires Inv(max, s) && c < |s.creations| && s.creations[c].pc.Preparing?
    ensures Inv(max, Register(s, c))
  {
    hide JobsOk, CreationsOk, PendingOk, RequestsOk, SignalledOk, Creating;
    var k := s.creations[c];
    ThisCreationOk(max, s, c);
    var job := Job(|s.spawned|, k.pc.dir, k.fingerprint);
    SetCreationKeepsInv(max, s, c, Polling(k.pc.dir, |s.spawned|));
    RegisterKeepsJobs(s, k.session, job);
    RegisterKeepsBusy(SetCreation(s, c, Polling(k.pc.dir, |s.spawned|)), c, job);
  }

  /** The finally of creation `c` frees its session and leaves the others alone. */
  lemma FinallyKeepsCreations(s: State, c: nat, k: Creation)
    requires CreationsOk(s.creations, s.pending, s.dirs) && PendingOk(s.pending, s.creations)
    requires c < |s.creations| && !s.creations[c].pc.Done?
    requires k.pc.Done? && k.session == s.creations[c].session && k.fingerprint == s.creations[c].fingerprint
    requires CreationOk(k, c, s.pending, s.dirs)
    ensures var pending, creations := s.pending - {k.session}, s.creations[c := k];
            && CreationsOk(creations, pending, s.dirs) && PendingOk(pending, creations)
            && Creating(pending, creations) <= Creating(s.pending, s.creations)
  {
    assert CreationOk(s.creations[c], c, s.pending, s.dirs);
    var pending, creations := s.pending - {k.session}, s.creations[c := k];
    forall d | 0 <= d < |creations| ensures CreationOk(creations[d], d, pending, s.dirs) {
      assert CreationOk(s.creations[d], d, s.pending, s.dirs);
    }
  }

  /** Creation `c` is done with `result`, and its pending entry is gone. */
  lemma FinishKeepsInv(max: nat, s: State, c: nat, result: Option<nat>)
    requires Inv(max, s) && c < |s.creations| && !s.creations[c].pc.Done?
    requires result.Some? ==> MadeFor(s.dirs, result.value, s.creations[c].fingerprint)
    ensures Inv(max, SetCreation(s, c, Done(result)).(pending := s.pending - {s.creations[c].session}))
  {
    hide JobsOk, CreationsOk, PendingOk, RequestsOk, SignalledOk, Creating;
    var k := s.creations[c];
    assert CreationOk(k.(pc := Done(result)), c, s.pending, s.dirs);
    FinallyKeepsCreations(s, c, k.(pc := Done(result)));
    UpdateKeepsRequests(s.requests, s.creations, c, Done(result), s.dirs);
    SubsetSize(Busy(SetCreation(s, c, Done(result)).(pending := s.pending - {k.session})), Busy(s));
  }

  lemma FinallyKeepsInv(max: nat, s: State, c: nat)
    requires Inv(max, s) && c < |s.creations|
    ensures Inv(max, CreationStep(s, c, Finally(c)))
  {
    hide Inv;
    var k := s.creations[c];
    ThisCreationOk(max, s, c);
    if k.pc.Settled? {
      FinishKeepsInv(max, s, c, k.pc.result);
    } else if k.pc.Refused? {
      FinishKeepsInv(max, s, c, None);
    }
  }

  lemma MadeDirKeepsInv(max: nat, s: State, c: nat, ok: bool)
    requires Inv(max, s) && c < |s.creations|
    ensures Inv(max, CreationStep(s, c, MadeDir(c, ok)))
  {
    hide Inv;
    var k := s.creations[c];
    ThisCreationOk(max, s, c);
    if k.pc.MakingDir? {
      if ok {
        MakeDirKeepsInv(max, s, k.fingerprint);
        SetCreationKeepsInv(max, s.(dirs := s.dirs + [k.fingerprint]), c, Preparing(|s.dirs|));
      } else {
        SetCreationKeepsInv(max, s, c, Settled(None));
      }
    }
  }

  lemma SpawnKeepsInv(max: nat, s: State, c: nat, outcome: Outcome)
    requires Inv(max, s) && c < |s.creations|
    ensures Inv(max, CreationStep(s, c, Spawn(c, outcome)))
  {
    hide Inv;
    ThisCreationOk(max, s, c);
    if s.creations[c].pc.Preparing? {
      match outcome
      case Spawned => RegisterKeepsInv(max, s, c);
      case SpawnThrew => SetCreationKeepsInv(max, s, c, Discarding);
      case PrepareThrew => SetCreationKeepsInv(max, s, c, Settled(None));
    }
  }

  lemma AbortKeepsInv(max: nat, s: State, c: nat)
    requires Inv(max, s) && c < |s.creations| && s.creations[c].pc.Polling?
    ensures Inv(max, SetCreation(Kill(s, s.creations[c].session), c, Aborting))
  {
    hide Inv;
    ThisCreationOk(max, s, c);
    KillKeepsInv(max, s, s.creations[c].session);
    SetCreationKeepsInv(max, Kill(s, s.creations[c].session), c, Aborting);
  }

  lemma PollKeepsInv(max: nat, s: State, c: nat, ready: bool, expired: bool)
    requires Inv(max, s) && c < |s.creations|
    ensures Inv(max, CreationStep(s, c, Poll(c, ready, expired)))
  {
    hide Inv;
    var k := s.creations[c];
    ThisCreationOk(max, s, c);
    if k.pc.Polling? {
      if !expired && ready {
        SetCreationKeepsInv(max, s, c, Settled(Some(k.pc.dir)));
      } else {
        AbortKeepsInv(max, s, c);
      }
    }
  }

  /** The rejection after a discarded directory. */
  lemma DiscardedKeepsInv(max: nat, s: State, c: nat)
    requires Inv(max, s) && c < |s.creations|
    ensures Inv(max, CreationStep(s, c, Discarded(c)))
  {
    hide Inv;
    var k := s.creations[c];
    ThisCreationOk(max, s, c);
    if k.pc.Discarding? { SetCreationKeepsInv(max, s, c, Settled(None)); }
  }

  /** The rejection after an aborted start. */
  lemma AbortedKeepsInv(max: nat, s: State, c: nat)
    requires Inv(max, s) && c < |s.creations|
    ensures Inv(max, CreationStep(s, c, Aborted(c)))
  {
    hide Inv;
    var k := s.creations[c];
    ThisCreationOk(max, s, c);
    if k.pc.Aborting? { SetCreationKeepsInv(max, s, c, Settled(None)); }
  }

  /** The events of a creation. */
  predicate OfCreation(e: Event) {
    e.MadeDir? || e.Spawn? || e.Discarded? || e.Poll? || e.Aborted? || e.Finally?
  }

  lemma CreationKeepsInv(max: nat, s: State, e: Event)
    requires Inv(max, s) && OfCreation(e) && e.creation < |s.creations|
    ensures Inv(max, CreationStep(s, e.creation, e))
  {
    hide Inv, CreationStep;
    match e
    case MadeDir(c, ok) => MadeDirKeepsInv(max, s, c, ok);
    case Spawn(c, outcome) => SpawnKeepsInv(max, s, c, outcome);
    case Discarded(c) => DiscardedKeepsInv(max, s, c);
    case Poll(c, ready, expired) => PollKeepsInv(max, s, c, ready, expired);
    case Aborted(c) => AbortedKeepsInv(max, s, c);
    case Finally(c) => FinallyKeepsInv(max, s, c);
  }

  lemma RequestKeepsInv(max: nat, s: State, r: nat, e: Event)
    requires Inv(max, s) && r < |s.requests|
    ensures Inv(max, RequestStep(max, s, r, e))
  {
    hide Inv, Enter, Proceed;
    var pc := s.requests[r].pc;
    ThisRequestOk(max, s, r);
    if e.Killed? && pc.Killing? { ProceedKeepsInv(max, s, r); }
    if e.Deliver? && (pc.Joining? || pc.Waiting?) && pc.creation < |s.creations|
       && s.creations[pc.creation].pc.Done? {
      ThisCreationOk(max, s, pc.creation);
      if pc.Waiting? {
        EnterKeepsInv(max, s, r);
      } else {
        var result := s.creations[pc.creation].pc.result;
        SetRequestKeepsInv(max, s, r, if result.Some? then Returned(result.value) else Threw);
      }
    }
  }

  lemma RecordKeepsInv(max: nat, s: State, q: Request)
    requires Inv(max, s) && q.pc.Entering?
    ensures Inv(max, s.(requests := s.requests + [q]))
  {
  }

  lemma EnsureKeepsInv(max: nat, s: State, session: Session, fingerprint: Fingerprint)
    requires Inv(max, s)
    ensures Inv(max, Step(max, s, Ensure(session, fingerprint)))
  {
    RecordKeepsInv(max, s, Request(session, fingerprint, Entering));
    EnterKeepsInv(max, s.(requests := s.requests + [Request(session, fingerprint, Entering)]), |s.requests|);
  }

  lemma FailKeepsInv(max: nat, s: State, child: nat)
    requires Inv(max, s)
    ensures Inv(max, s.(failed := s.failed + {child}))
  {
    assert Busy(s.(failed := s.failed + {child})) == Busy(s);
  }

  lemma StepKeepsInv(max: nat, s: State, e: Event)
    requires Inv(max, s)
    ensures Inv(max, Step(max, s, e))
  {
    hide Inv, CreationStep, RequestStep, Enter, Kill;
    match e
    case Ensure(session, fingerprint) => EnsureKeepsInv(max, s, session, fingerprint);
    case Killed(r) => if r < |s.requests| { RequestKeepsInv(max, s, r, e); }
    case Deliver(r) => if r < |s.requests| { RequestKeepsInv(max, s, r, e); }
    case Reap(session) => KillKeepsInv(max, s, session);
    case ChildFails(child) => FailKeepsInv(max, s, child);
    case _ => if e.creation < |s.creations| { CreationKeepsInv(max, s, e); }
  }

  lemma {:induction false} RunKeepsInv(max: nat, s: State, trace: seq<Event>)
    requires Inv(max, s)
    ensures Inv(max, Run(max, s, trace))
    decreases |trace|
  {
    if trace != [] {
      StepKeepsInv(max, s, trace[0]);
      RunKeepsInv(max, Step(max, s, trace[0]), trace[1..]);
    }
  }

  // ---------------------------------------------------------------------------
  // Safety over every run, fingerprint changes allowed

  /** The sessions registered or being created never exceed the cap. */
  lemma CapRespected(max: nat, trace: seq<Event>)
    ensures |Busy(Run(max, INITIAL, trace))| <= max
  {
    assert Busy(INITIAL) == {};
    RunKeepsInv(max, INITIAL, trace);
  }

  /** Each session has at most one creation in flight. */
  lemma OneCreationPerSession(max: nat, trace: seq<Event>, c: nat, d: nat)
    requires var s := Run(max, INITIAL, trace);
             && c < |s.creations| && d < |s.creations|
             && !s.creations[c].pc.Done? && !s.creations[d].pc.Done?
             && s.creations[c].session == s.creations[d].session
    ensures c == d
  {
    assert Busy(INITIAL) == {};
    RunKeepsInv(max, INITIAL, trace);
    var s := Run(max, INITIAL, trace);
    assert CreationOk(s.creations[c], c, s.pending, s.dirs);
    assert CreationOk(s.creations[d], d, s.pending, s.dirs);
  }

  /** Every directory ensureJob returns was made for exactly the fingerprint its caller asked for. */
  lemma RightDirectory(max: nat, trace: seq<Event>, r: nat)
    requires r < |Run(max, INITIAL, trace).requests| && Run(max, INITIAL, trace).requests[r].pc.Returned?
    ensures var s := Run(max, INITIAL, trace);
            MadeFor(s.dirs, s.requests[r].pc.dir, s.requests[r].fingerprint)
  {
    assert Busy(INITIAL) == {};
    RunKeepsInv(max, INITIAL, trace);
    var s := Run(max, INITIAL, trace);
    assert RequestOk(s.requests[r], s.creations, s.dirs);
  }

  // ---------------------------------------------------------------------------
  // Orphaned ffmpeg processes

  /** Every child of the session that was never signalled is the registered job's. */
  ghost predicate NoOrphans(jobs: map<Session, Job>, spawned: seq<Session>, signalled: set<nat>, session: Session) {
    forall child :: 0 <= child < |spawned| && spawned[child] == session && child !in signalled ==>
      session in jobs && jobs[session].child == child
  }

  /** What a step does to the jobs and the children. */
  datatype Effect = Nothing | Kills(session: Session) | Registers(session: Session, job: Job)

  function EnterEffect(s: State, session: Session, fingerprint: Fingerprint): Effect {
    if session in s.jobs && s.jobs[session].fingerprint != fingerprint then Kills(session) else Nothing
  }

  function EffectOf(s: State, e: Event): Effect {
    match e
    case Ensure(session, fp) => EnterEffect(s, session, fp)
    case Deliver(r) =>
      if r < |s.requests| && s.requests[r].pc.Waiting? && s.requests[r].pc.creation < |s.creations|
         && s.creations[s.requests[r].pc.creation].pc.Done?
      then EnterEffect(s, s.requests[r].session, s.requests[r].fingerprint) else Nothing
    case Spawn(c, Spawned) =>
      if c < |s.creations| && s.creations[c].pc.Preparing?
      then Registers(s.creations[c].session,
                     Job(|s.spawned|, s.creations[c].pc.dir, s.creations[c].fingerprint)) else Nothing
    case Poll(c, ready, expired) =>
      if c < |s.creations| && s.creations[c].pc.Polling?
         && (expired || (!ready && s.creations[c].pc.child in s.failed))
      then Kills(s.creations[c].session) else Nothing
    case Reap(session) => Kills(session)
    case _ => Nothing
  }

  ghost predicate Has(s: State, t: State, effect: Effect) {
    match effect
    case Nothing => t.jobs == s.jobs && t.spawned == s.spawned && t.signalled == s.signalled
    case Kills(session) =>
      t.jobs == Kill(s, session).jobs && t.spawned == s.spawned && t.signalled == Kill(s, session).signalled
    case Registers(session, job) =>
      t.jobs == s.jobs[session := job] && t.spawned == s.spawned + [session] && t.signalled == s.signalled
  }

  lemma EnterHasEffect(max: nat, s: State, r: nat)
    requires r < |s.requests|
    ensures Has(s, Enter(max, s, r), EnterEffect(s, s.requests[r].session, s.requests[r].fingerprint))
  {
  }

  lemma CreationHasEffect(s: State, e: Event)
    requires OfCreation(e) && e.creation < |s.creations|
    ensures Has(s, CreationStep(s, e.creation, e), EffectOf(s, e))
  {
  }

  lemma EnsureHasEffect(max: nat, s: State, e: Event)
    requires e.Ensure? || e.Deliver?
    ensures Has(s, Step(max, s, e), EffectOf(s, e))
  {
    if e.Ensure? {
      EnterHasEffect(max, s.(requests := s.requests + [Request(e.session, e.fingerprint, Entering)]), |s.requests|);
    } else if e.request < |s.requests| {
      EnterHasEffect(max, s, e.request);
    }
  }

  lemma StepHasEffect(max: nat, s: State, e: Event)
    ensures Has(s, Step(max, s, e), EffectOf(s, e))
  {
    if e.Ensure? || e.Deliver? {
      EnsureHasEffect(max, s, e);
    } else if OfCreation(e) && e.creation < |s.creations| {
      CreationHasEffect(s, e);
    }
  }

  /** The registration that replaces a job which is still there. */
  predicate Overwrites(s: State, e: Event, session: Session) {
    EffectOf(s, e).Registers? && EffectOf(s, e).session == session && session in s.jobs
  }

  lemma EffectOnOrphans(s: State, t: State, effect: Effect, session: Session)
    requires JobsOk(s.jobs, s.dirs, s.spawned, s.signalled) && Has(s, t, effect)
    requires NoOrphans(s.jobs, s.spawned, s.signalled, session)
    requires effect.Registers? ==> effect.job.child == |s.spawned| && |s.spawned| !in s.signalled
    ensures NoOrphans(t.jobs, t.spawned, t.signalled, session)
            <==> !(effect.Registers? && effect.session == session && session in s.jobs)
  {
    if effect.Registers? && effect.session == session && session in s.jobs {
      var lost := s.jobs[session].child;
      assert t.spawned[lost] == session && lost !in t.signalled && t.jobs[session].child != lost;
    }
  }

  /**
    Exactly when a step orphans an ffmpeg of the session: when it registers a job over one that
    is still registered, which the code does not check for.
   */
  lemma OrphanExact(max: nat, s: State, e: Event, session: Session)
    requires Inv(max, s) && NoOrphans(s.jobs, s.spawned, s.signalled, session)
    ensures var t := Step(max, s, e);
            NoOrphans(t.jobs, t.spawned, t.signalled, session) <==> !Overwrites(s, e, session)
  {
    StepHasEffect(max, s, e);
    EffectOnOrphans(s, Step(max, s, e), EffectOf(s, e), session);
  }

  // While every request for a session carries one fingerprint, that never happens.

  predicate UniformRequest(q: Request, session: Session, fp: Fingerprint) {
    q.session == session ==> q.fingerprint == fp && !q.pc.Killing? && !q.pc.Waiting?
  }

  ghost predicate UniformRequests(requests: seq<Request>, session: Session, fp: Fingerprint) {
    forall r :: 0 <= r < |requests| ==> UniformRequest(requests[r], session, fp)
  }

  /** A creation that has not registered yet has no job to overwrite. */
  predicate UniformCreation(k: Creation, registered: bool, session: Session, fp: Fingerprint) {
    k.session == session ==> k.fingerprint == fp && (k.pc.MakingDir? || k.pc.Preparing? ==> !registered)
  }

  ghost predicate UniformCreations(creations: seq<Creation>, registered: bool, session: Session, fp: Fingerprint) {
    forall c :: 0 <= c < |creations| ==> UniformCreation(creations[c], registered, session, fp)
  }

  ghost predicate UniformJob(jobs: map<Session, Job>, session: Session, fp: Fingerprint) {
    session in jobs ==> jobs[session].fingerprint == fp
  }

  ghost predicate Uniform(s: State, session: Session, fp: Fingerprint) {
    && UniformRequests(s.requests, session, fp)
    && UniformCreations(s.creations, session in s.jobs, session, fp)
    && UniformJob(s.jobs, session, fp)
  }

  lemma KillKeepsUniform(s: State, killed: Session, session: Session, fp: Fingerprint)
    requires Uniform(s, session, fp)
    ensures Uniform(Kill(s, killed), session, fp)
  {
  }

  lemma ProceedKeepsUniform(max: nat, s: State, r: nat, session: Session, fp: Fingerprint)
    requires Uniform(s, session, fp) && PendingOk(s.pending, s.creations) && r < |s.requests|
    requires s.requests[r].session == session ==> session !in s.jobs
    ensures Uniform(Proceed(max, s, r), session, fp)
  {
    var q := s.requests[r];
    assert UniformRequest(q, session, fp);
    if q.session in s.pending {
      assert UniformCreation(s.creations[s.pending[q.session]], session in s.jobs, session, fp);
    }
  }

  lemma EnterKeepsUniform(max: nat, s: State, r: nat, session: Session, fp: Fingerprint)
    requires Uniform(s, session, fp) && PendingOk(s.pending, s.creations) && r < |s.requests|
    ensures Uniform(Enter(max, s, r), session, fp)
  {
    var q := s.requests[r];
    assert UniformRequest(q, session, fp);
    if q.session !in s.jobs {
      ProceedKeepsUniform(max, s, r, session, fp);
    } else {
      KillKeepsUniform(s, q.session, session, fp);
    }
  }

  /** Registering turns the session's only unfinished creation into a polling one. */
  lemma RegisterKeepsUniform(s: State, c: nat, session: Session, fp: Fingerprint)
    requires Uniform(s, session, fp) && CreationsOk(s.creations, s.pending, s.dirs)
    requires c < |s.creations| && s.creations[c].pc.Preparing?
    ensures Uniform(Register(s, c), session, fp)
  {
    var t := Register(s, c);
    assert UniformCreation(s.creations[c], session in s.jobs, session, fp);
    forall d | 0 <= d < |t.creations| ensures UniformCreation(t.creations[d], session in t.jobs, session, fp) {
      assert UniformCreation(s.creations[d], session in s.jobs, session, fp);
      assert CreationOk(s.creations[d], d, s.pending, s.dirs) && CreationOk(s.creations[c], c, s.pending, s.dirs);
    }
  }

  lemma PollKeepsUniform(s: State, e: Event, session: Session, fp: Fingerprint)
    requires Uniform(s, session, fp) && e.Poll? && e.creation < |s.creations|
    ensures Uniform(CreationStep(s, e.creation, e), session, fp)
  {
    var k := s.creations[e.creation];
    assert UniformCreation(k, session in s.jobs, session, fp);
    KillKeepsUniform(s, k.session, session, fp);
  }

  lemma CreationKeepsUniform(s: State, e: Event, session: Session, fp: Fingerprint)
    requires Uniform(s, session, fp) && CreationsOk(s.creations, s.pending, s.dirs)
    requires OfCreation(e) && e.creation < |s.creations|
    ensures Uniform(CreationStep(s, e.creation, e), session, fp)
  {
    var k := s.creations[e.creation];
    assert UniformCreation(k, session in s.jobs, session, fp);
    if e.Spawn? && e.outcome.Spawned? && k.pc.Preparing? {
      RegisterKeepsUniform(s, e.creation, session, fp);
    } else if e.Poll? {
      PollKeepsUniform(s, e, session, fp);
    }
  }

  lemma RequestKeepsUniform(max: nat, s: State, r: nat, e: Event, session: Session, fp: Fingerprint)
    requires Uniform(s, session, fp) && PendingOk(s.pending, s.creations) && r < |s.requests|
    ensures Uniform(RequestStep(max, s, r, e), session, fp)
  {
    hide Enter, Proceed;
    assert UniformRequest(s.requests[r], session, fp);
    if e.Killed? && s.requests[r].pc.Killing? {
      ProceedKeepsUniform(max, s, r, session, fp);
    } else if e.Deliver? {
      EnterKeepsUniform(max, s, r, session, fp);
    }
  }

  lemma StepKeepsUniform(max: nat, s: State, e: Event, session: Session, fp: Fingerprint)
    requires Inv(max, s) && Uniform(s, session, fp)
    requires e.Ensure? && e.session == session ==> e.fingerprint == fp
    ensures Uniform(Step(max, s, e), session, fp)
  {
    hide CreationStep, Enter, RequestStep, Kill;
    match e
    case Ensure(other, fingerprint) =>
      var t := s.(requests := s.requests + [Request(other, fingerprint, Entering)]);
      EnterKeepsUniform(max, t, |s.requests|, session, fp);
    case Killed(r) => if r < |s.requests| { RequestKeepsUniform(max, s, r, e, session, fp); }
    case Deliver(r) => if r < |s.requests| { RequestKeepsUniform(max, s, r, e, session, fp); }
    case Reap(other) => KillKeepsUniform(s, other, session, fp);
    case ChildFails(_) =>
    case _ => if e.creation < |s.creations| { CreationKeepsUniform(s, e, session, fp); }
  }

  /** Every request for the session in the trace asks for `fp`. */
  predicate AsksFor(trace: seq<Event>, session: Session, fp: Fingerprint) {
    forall i :: 0 <= i < |trace| && trace[i].Ensure? && trace[i].session == session ==>
      trace[i].fingerprint == fp
  }

  lemma {:induction false} UniformRun(max: nat, s: State, trace: seq<Event>, session: Session, fp: Fingerprint)
    requires Inv(max, s) && Uniform(s, session, fp) && AsksFor(trace, session, fp)
    requires NoOrphans(s.jobs, s.spawned, s.signalled, session)
    ensures var t := Run(max, s, trace);
            NoOrphans(t.jobs, t.spawned, t.signalled, session)
    decreases |trace|
  {
    if trace != [] {
      var t := Step(max, s, trace[0]);
      StepKeepsInv(max, s, trace[0]);
      StepKeepsUniform(max, s, trace[0], session, fp);
      UniformNeverOverwrites(s, trace[0], session, fp);
      OrphanExact(max, s, trace[0], session);
      assert AsksFor(trace[1..], session, fp);
      UniformRun(max, t, trace[1..], session, fp);
    }
  }

  lemma UniformNeverOverwrites(s: State, e: Event, session: Session, fp: Fingerprint)
    requires Uniform(s, session, fp)
    ensures !Overwrites(s, e, session)
  {
    if EffectOf(s, e).Registers? {
      assert UniformCreation(s.creations[e.creation], session in s.jobs, session, fp);
    }
  }

  /**
    While every request for a session carries the same fingerprint, every spawned and not yet
    signalled ffmpeg of the session is the child of its registered job, in every interleaving of
    requests, reaps, spawn failures, early exits and start timeouts.
   */
  lemma UniformSessionHasNoOrphans(max: nat, trace: seq<Event>, session: Session, fp: Fingerprint)
    requires AsksFor(trace, session, fp)
    ensures var s := Run(max, INITIAL, trace);
            NoOrphans(s.jobs, s.spawned, s.signalled, session)
  {
    assert Busy(INITIAL) == {};
    UniformRun(max, INITIAL, trace, session, fp);
  }

  function Unsignalled(s: State): set<nat> {
    set child | 0 <= child < |s.spawned| && child !in s.signalled
  }

  /** Children of distinct sessions number no more than the sessions. */
  lemma {:induction false} ChildrenOfSessions(jobs: map<Session, Job>, children: set<nat>)
    requires forall child :: child in children ==> exists session :: session in jobs && jobs[session].child == child
    ensures |children| <= |jobs|
    decreases |children|
  {
    if children != {} {
      var child :| child in children;
      var session :| session in jobs && jobs[session].child == child;
      var rest := jobs - {session};
      forall other | other in children - {child}
        ensures exists u :: u in rest && rest[u].child == other
      {
        var u :| u in jobs && jobs[u].child == other;
        assert u in rest;
      }
      ChildrenOfSessions(rest, children - {child});
      assert rest.Keys == jobs.Keys - {session};
    }
  }

  /** If every session keeps to one fingerprint, no more than the cap of ffmpegs are unsignalled. */
  lemma ProcessCap(max: nat, trace: seq<Event>, fpOf: Session -> Fingerprint)
    requires forall i :: 0 <= i < |trace| && trace[i].Ensure? ==> trace[i].fingerprint == fpOf(trace[i].session)
    ensures |Unsignalled(Run(max, INITIAL, trace))| <= max
  {
    var s := Run(max, INITIAL, trace);
    forall child | child in Unsignalled(s)
      ensures exists session :: session in s.jobs && s.jobs[session].child == child
    {
      UniformSessionHasNoOrphans(max, trace, s.spawned[child], fpOf(s.spawned[child]));
    }
    ChildrenOfSessions(s.jobs, Unsignalled(s));
    CapRespected(max, trace);
    SubsetSize(s.jobs.Keys, Busy(s));
  }

  // With a change of fingerprint it does happen.

  lemma {:induction false} RunAppend(max: nat, s: State, first: seq<Event>, second: seq<Event>)
    ensures Run(max, s, first + second) == Run(max, Run(max, s, first), second)
    decreases |first|
  {
    if first == [] {
      assert first + second == second;
    } else {
      assert (first + second)[1..] == first[1..] + second;
      RunAppend(max, Step(max, s, first[0]), first[1..], second);
    }
  }

  lemma RunOne(max: nat, s: State, e: Event)
    ensures Run(max, s, [e]) == Step(max, s, e)
  {
    assert [e][1..] == [];
  }

  lemma RunTwo(max: nat, s: State, d: Event, e: Event)
    ensures Run(max, s, [d, e]) == Step(max, Step(max, s, d), e)
  {
    assert [d, e][1..] == [e];
    RunOne(max, Step(max, s, d), e);
  }

  /** A request of fingerprint 0 has its directory. */
  const ASKING: seq<Event> := [Ensure(0, 0), MadeDir(0, true)]
  const ASKED: State :=
    State(map[], map[0 := 0], [Creation(0, 0, Preparing(0))], [Request(0, 0, Joining(0))], {}, {}, [], [0])

  lemma FirstAsked()
    ensures Run(2, INITIAL, ASKING) == ASKED
  {
    var asked := INITIAL.(pending := map[0 := 0], creations := [Creation(0, 0, MakingDir)],
                          requests := [Request(0, 0, Joining(0))]);
    RunTwo(2, INITIAL, Ensure(0, 0), MadeDir(0, true));
    assert Step(2, INITIAL, Ensure(0, 0)) == asked;
    var made := Step(2, asked, MadeDir(0, true));
    assert made.dirs == [0] && made.creations == [Creation(0, 0, Preparing(0))];
    assert made == asked.(dirs := [0], creations := [Creation(0, 0, Preparing(0))]);
  }

  /** Its job is registered and its creation finished. */
  const STARTING: seq<Event> := [Spawn(0, Spawned)] + [Poll(0, true, false), Finally(0)]
  const STARTED: State :=
    State(map[0 := Job(0, 0, 0)], map[], [Creation(0, 0, Done(Some(0)))], [Request(0, 0, Joining(0))],
          {}, {}, [0], [0])

  lemma FirstStarted()
    ensures Run(2, ASKED, STARTING) == STARTED
  {
    var spawned := ASKED.(creations := [Creation(0, 0, Polling(0, 0))], jobs := map[0 := Job(0, 0, 0)], spawned := [0]);
    RunAppend(2, ASKED, [Spawn(0, Spawned)], [Poll(0, true, false), Finally(0)]);
    RunOne(2, ASKED, Spawn(0, Spawned));
    var t := Step(2, ASKED, Spawn(0, Spawned));
    assert t.spawned == [0] && t.creations == spawned.creations && t.jobs == spawned.jobs;
    assert t == ASKED.(creations := t.creations, jobs := t.jobs, spawned := t.spawned);
    RunTwo(2, spawned, Poll(0, true, false), Finally(0));
    assert Step(2, spawned, Poll(0, true, false)) == spawned.(creations := [Creation(0, 0, Settled(Some(0)))]);
  }

  /** It is killed for fingerprint 1; while that request waits, another asks for fingerprint 0. */
  const REPLACING: seq<Event> := [Ensure(0, 1), Ensure(0, 0)]
  const REPLACED: State :=
    State(map[], map[0 := 1], [Creation(0, 0, Done(Some(0))), Creation(0, 0, MakingDir)],
          [Request(0, 0, Joining(0)), Request(0, 1, Killing), Request(0, 0, Joining(1))], {0}, {}, [0], [0])

  lemma FirstReplaced()
    ensures Run(2, STARTED, REPLACING) == REPLACED
  {
    RunTwo(2, STARTED, Ensure(0, 1), Ensure(0, 0));
    assert Step(2, STARTED, Ensure(0, 1))
        == STARTED.(jobs := map[], signalled := {0}, requests := [Request(0, 0, Joining(0)), Request(0, 1, Killing)]);
  }

  /** The second job is registered and its creation finished. */
  const RESTARTING: seq<Event> := [MadeDir(1, true), Spawn(1, Spawned)] + [Poll(1, true, false), Finally(1)]
  const RESTARTED: State :=
    State(map[0 := Job(1, 1, 0)], map[], [Creation(0, 0, Done(Some(0))), Creation(0, 0, Done(Some(1)))],
          [Request(0, 0, Joining(0)), Request(0, 1, Killing), Request(0, 0, Joining(1))], {0}, {}, [0, 0], [0, 0])

  lemma SecondSpawned()
    ensures Run(2, REPLACED, [MadeDir(1, true), Spawn(1, Spawned)])
         == RESTARTED.(pending := map[0 := 1],
                       creations := [Creation(0, 0, Done(Some(0))), Creation(0, 0, Polling(1, 1))])
  {
    RunTwo(2, REPLACED, MadeDir(1, true), Spawn(1, Spawned));
    assert Step(2, REPLACED, MadeDir(1, true))
        == REPLACED.(creations := [Creation(0, 0, Done(Some(0))), Creation(0, 0, Preparing(1))], dirs := [0, 0]);
  }

  lemma SecondStarted()
    ensures Run(2, REPLACED, RESTARTING) == RESTARTED
  {
    var finished := Creation(0, 0, Done(Some(0)));
    var spawned := RESTARTED.(pending := map[0 := 1], creations := [finished, Creation(0, 0, Polling(1, 1))]);
    RunAppend(2, REPLACED, [MadeDir(1, true), Spawn(1, Spawned)], [Poll(1, true, false), Finally(1)]);
    SecondSpawned();
    RunTwo(2, spawned, Poll(1, true, false), Finally(1));
    assert Step(2, spawned, Poll(1, true, false))
        == spawned.(creations := [finished, Creation(0, 0, Settled(Some(1)))]);
  }

  /** The kill finishes, and the request that waited for it spawns a third job. */
  const OVERWRITING: seq<Event> := [Killed(1), MadeDir(2, true)] + [Spawn(2, Spawned)]

  lemma ThirdPrepared()
    ensures Run(2, RESTARTED, [Killed(1), MadeDir(2, true)])
         == RESTARTED.(pending := map[0 := 2], creations := RESTARTED.creations + [Creation(0, 1, Preparing(2))],
                       requests := RESTARTED.requests[1 := Request(0, 1, Joining(2))], dirs := [0, 0, 1])
  {
    RunTwo(2, RESTARTED, Killed(1), MadeDir(2, true));
    assert Step(2, RESTARTED, Killed(1))
        == RESTARTED.(pending := map[0 := 2], creations := RESTARTED.creations + [Creation(0, 1, MakingDir)],
                      requests := RESTARTED.requests[1 := Request(0, 1, Joining(2))]);
  }

  lemma ThirdOverwrites()
    ensures var s := Run(2, RESTARTED, OVERWRITING);
            !NoOrphans(s.jobs, s.spawned, s.signalled, 0) && s.jobs.Keys == {0} && s.jobs[0].child == 2
            && 1 in Unsignalled(s)
  {
    var prepared := Run(2, RESTARTED, [Killed(1), MadeDir(2, true)]);
    RunAppend(2, RESTARTED, [Killed(1), MadeDir(2, true)], [Spawn(2, Spawned)]);
    ThirdPrepared();
    RunOne(2, prepared, Spawn(2, Spawned));
    var s := Step(2, prepared, Spawn(2, Spawned));
    assert s.spawned == [0, 0, 0] && s.jobs == map[0 := Job(2, 2, 1)] && s.signalled == {0};
    assert s.spawned[1] == 0;
  }

  /**
    The reachable counterexample: the request that waited for the kill does not look at the jobs
    again, creates a third job over the second, and the second job's ffmpeg is left running with
    nothing to signal it.
   */
  lemma FingerprintChangeOrphans()
    ensures var s := Run(2, INITIAL, ASKING + STARTING + REPLACING + RESTARTING + OVERWRITING);
            !NoOrphans(s.jobs, s.spawned, s.signalled, 0) && s.jobs.Keys == {0} && s.jobs[0].child == 2
            && 1 in Unsignalled(s)
  {
    RunAppend(2, INITIAL, ASKING, STARTING);
    RunAppend(2, INITIAL, ASKING + STARTING, REPLACING);
    RunAppend(2, INITIAL, ASKING + STARTING + REPLACING, RESTARTING);
    RunAppend(2, INITIAL, ASKING + STARTING + REPLACING + RESTARTING, OVERWRITING);
    FirstAsked();
    FirstStarted();
    FirstReplaced();
    SecondStarted();
    ThirdOverwrites();
  }

  // ---------------------------------------------------------------------------
  // What requests are answered

  /** Creations are only added to, keep what they are for, and stay done once they are. */
  ghost predicate Grows(before: seq<Creation>, after: seq<Creation>) {
    && |before| <= |after|
    && forall c :: 0 <= c < |before| ==>
         && after[c].session == before[c].session && after[c].fingerprint == before[c].fingerprint
         && (before[c].pc.Done? ==> after[c] == before[c])
  }

  lemma ProceedGrows(max: nat, s: State, r: nat)
    requires r < |s.requests|
    ensures Grows(s.creations, Proceed(max, s, r).creations)
  {
  }

  lemma EnterGrows(max: nat, s: State, r: nat)
    requires r < |s.requests|
    ensures Grows(s.creations, Enter(max, s, r).creations) && Grows(s.creations, Proceed(max, s, r).creations)
  {
    hide Proceed, Grows;
    ProceedGrows(max, s, r);
    GrowsStill(s.creations);
  }

  lemma CreationGrows(s: State, c: nat, e: Event)
    requires c < |s.creations|
    ensures Grows(s.creations, CreationStep(s, c, e).creations)
  {
  }

  lemma StepGrows(max: nat, s: State, e: Event)
    ensures Grows(s.creations, Step(max, s, e).creations)
  {
    hide Enter, Proceed, CreationStep, Grows;
    GrowsStill(s.creations);
    match e
    case Ensure(session, fp) =>
      EnterGrows(max, s.(requests := s.requests + [Request(session, fp, Entering)]), |s.requests|);
    case Killed(r) => if r < |s.requests| { EnterGrows(max, s, r); }
    case Deliver(r) => if r < |s.requests| { EnterGrows(max, s, r); }
    case Reap(_) =>
    case ChildFails(_) =>
    case _ => if e.creation < |s.creations| { CreationGrows(s, e.creation, e); }
  }

  lemma GrowsStill(creations: seq<Creation>)
    ensures Grows(creations, creations)
  {
  }

  /** The request's own: what it joined is for its session and fingerprint, and it threw only if one such failed. */
  ghost predicate Honest(q: Request, creations: seq<Creation>) {
    match q.pc
    case Joining(c) => c < |creations| && creations[c].session == q.session && creations[c].fingerprint == q.fingerprint
    case Threw => FailedFor(creations, q.session, q.fingerprint)
    case _ => true
  }

  ghost predicate FailedFor(creations: seq<Creation>, session: Session, fp: Fingerprint) {
    exists c :: 0 <= c < |creations| && creations[c] == Creation(session, fp, Done(None))
  }

  ghost predicate AllHonest(s: State) {
    forall r :: 0 <= r < |s.requests| ==> Honest(s.requests[r], s.creations)
  }

  lemma GrowthKeepsHonest(q: Request, before: seq<Creation>, after: seq<Creation>)
    requires Honest(q, before) && Grows(before, after)
    ensures Honest(q, after)
  {
    if q.pc.Threw? {
      var c :| 0 <= c < |before| && before[c] == Creation(q.session, q.fingerprint, Done(None));
      assert after[c] == before[c];
    }
  }

  /** Only request `r` changes, if any, and it keeps its session and fingerprint. */
  ghost predicate OnlyRequest(s: State, t: State, r: nat) {
    && |t.requests| == |s.requests|
    && (forall q :: 0 <= q < |s.requests| && q != r ==> t.requests[q] == s.requests[q])
    && (r < |s.requests| ==> t.requests[r].session == s.requests[r].session
                             && t.requests[r].fingerprint == s.requests[r].fingerprint)
  }

  lemma ProceedIsHonest(max: nat, s: State, r: nat)
    requires r < |s.requests| && PendingOk(s.pending, s.creations)
    ensures var t := Proceed(max, s, r); OnlyRequest(s, t, r) && Honest(t.requests[r], t.creations)
  {
  }

  lemma EnterIsHonest(max: nat, s: State, r: nat)
    requires r < |s.requests| && PendingOk(s.pending, s.creations)
    ensures var t := Enter(max, s, r); OnlyRequest(s, t, r) && Honest(t.requests[r], t.creations)
    ensures var t := Proceed(max, s, r); OnlyRequest(s, t, r) && Honest(t.requests[r], t.creations)
  {
    hide Proceed, FailedFor;
    ProceedIsHonest(max, s, r);
  }

  lemma RequestIsHonest(max: nat, s: State, r: nat, e: Event)
    requires r < |s.requests| && PendingOk(s.pending, s.creations) && Honest(s.requests[r], s.creations)
    ensures var t := RequestStep(max, s, r, e); OnlyRequest(s, t, r) && Honest(t.requests[r], t.creations)
  {
    hide Enter, Proceed;
    EnterIsHonest(max, s, r);
    var q := s.requests[r];
    if q.pc.Joining? && q.pc.creation < |s.creations| && s.creations[q.pc.creation].pc == Done(None) {
      assert s.creations[q.pc.creation] == Creation(q.session, q.fingerprint, Done(None));
    }
  }

  lemma StepKeepsHonest(max: nat, s: State, e: Event)
    requires Inv(max, s) && AllHonest(s)
    ensures AllHonest(Step(max, s, e))
  {
    hide Enter, RequestStep, CreationStep, Honest, Grows;
    var t := Step(max, s, e);
    StepGrows(max, s, e);
    match e {
      case Ensure(session, fp) =>
        EnterIsHonest(max, s.(requests := s.requests + [Request(session, fp, Entering)]), |s.requests|);
      case Killed(r) => if r < |s.requests| { RequestIsHonest(max, s, r, e); }
      case Deliver(r) => if r < |s.requests| { RequestIsHonest(max, s, r, e); }
      case Reap(_) =>
      case ChildFails(_) =>
      case _ => if e.creation < |s.creations| { CreationKeepsRequests(s, e.creation, e); }
    }
    forall q | 0 <= q < |t.requests| ensures Honest(t.requests[q], t.creations) {
      if q < |s.requests| && t.requests[q] == s.requests[q] {
        GrowthKeepsHonest(s.requests[q], s.creations, t.creations);
      }
    }
  }

  lemma CreationKeepsRequests(s: State, c: nat, e: Event)
    requires c < |s.creations|
    ensures CreationStep(s, c, e).requests == s.requests
  {
  }

  lemma {:induction false} RunKeepsHonest(max: nat, s: State, trace: seq<Event>)
    requires Inv(max, s) && AllHonest(s)
    ensures AllHonest(Run(max, s, trace))
    decreases |trace|
  {
    hide Inv, Step, AllHonest;
    if trace != [] {
      StepKeepsInv(max, s, trace[0]);
      StepKeepsHonest(max, s, trace[0]);
      RunKeepsHonest(max, Step(max, s, trace[0]), trace[1..]);
    }
  }

  lemma Reachable(max: nat, trace: seq<Event>)
    ensures Inv(max, Run(max, INITIAL, trace)) && AllHonest(Run(max, INITIAL, trace))
  {
    assert Busy(INITIAL) == {};
    RunKeepsInv(max, INITIAL, trace);
    RunKeepsHonest(max, INITIAL, trace);
  }

  /** ensureJob rejects only when a creation for its session and fingerprint was refused or failed. */
  lemma ThrowsOnlyOnFailure(max: nat, trace: seq<Event>, r: nat)
    requires r < |Run(max, INITIAL, trace).requests| && Run(max, INITIAL, trace).requests[r].pc.Threw?
    ensures var s := Run(max, INITIAL, trace);
            exists c :: 0 <= c < |s.creations|
                        && s.creations[c] == Creation(s.requests[r].session, s.requests[r].fingerprint, Done(None))
  {
    Reachable(max, trace);
    var s := Run(max, INITIAL, trace);
    assert Honest(s.requests[r], s.creations);
    assert FailedFor(s.creations, s.requests[r].session, s.requests[r].fingerprint);
  }

  /** The request still waits for creation `c`, or it has what that creation ended with. */
  predicate HasItsResult(s: State, r: nat, c: nat) {
    && r < |s.requests| && c < |s.creations|
    && (s.requests[r].pc == Joining(c)
        || (s.creations[c].pc.Done? && s.requests[r].pc == Answer(s.creations[c].pc.result)))
  }

  function Answer(result: Option<nat>): RequestPc {
    if result.Some? then Returned(result.value) else Threw
  }

  lemma OthersKeepRequest(max: nat, s: State, e: Event, r: nat)
    requires r < |s.requests| && !(e.Deliver? && e.request == r) && !s.requests[r].pc.Killing?
    ensures r < |Step(max, s, e).requests| && Step(max, s, e).requests[r] == s.requests[r]
  {
    hide Enter, RequestStep, CreationStep, Kill;
    match e
    case Ensure(session, fp) =>
      EnterKeepsOthers(max, s.(requests := s.requests + [Request(session, fp, Entering)]), |s.requests|, r);
    case Killed(q) => if q < |s.requests| { RequestKeepsOthers(max, s, q, e, r); }
    case Deliver(q) => if q < |s.requests| { RequestKeepsOthers(max, s, q, e, r); }
    case Reap(session) => KillKeepsRequests(s, session);
    case ChildFails(_) =>
    case _ => if e.creation < |s.creations| { CreationKeepsRequests(s, e.creation, e); }
  }

  lemma KillKeepsRequests(s: State, session: Session)
    ensures Kill(s, session).requests == s.requests
  {
  }

  lemma EnterKeepsOthers(max: nat, s: State, q: nat, r: nat)
    requires q < |s.requests| && r < |s.requests| && r != q
    ensures forall t :: t == Enter(max, s, q) || t == Proceed(max, s, q) ==>
              r < |t.requests| && t.requests[r] == s.requests[r]
  {
  }

  lemma RequestKeepsOthers(max: nat, s: State, q: nat, e: Event, r: nat)
    requires q < |s.requests| && r < |s.requests| && (r != q || (e.Killed? && !s.requests[r].pc.Killing?))
    ensures r < |RequestStep(max, s, q, e).requests| && RequestStep(max, s, q, e).requests[r] == s.requests[r]
  {
    hide Enter, Proceed;
    if r != q { EnterKeepsOthers(max, s, q, r); }
  }

  lemma StepKeepsResult(max: nat, s: State, e: Event, r: nat, c: nat)
    requires HasItsResult(s, r, c)
    ensures HasItsResult(Step(max, s, e), r, c)
  {
    StepGrows(max, s, e);
    if e.Deliver? && e.request == r {
      DeliverAnswers(max, s, r, c);
    } else {
      hide Step;
      OthersKeepRequest(max, s, e, r);
    }
  }

  lemma DeliverAnswers(max: nat, s: State, r: nat, c: nat)
    requires HasItsResult(s, r, c)
    ensures var t := Step(max, s, Deliver(r));
            && t.creations == s.creations && r < |t.requests|
            && t.requests[r].pc == if s.creations[c].pc.Done? then Answer(s.creations[c].pc.result) else Joining(c)
  {
  }

  /**
    A request that joined a creation is answered with what that creation ends with: through any
    run it waits or has that answer, and once the creation is done its delivery gives it.
   */
  lemma {:induction false} JoinedIsAnswered(max: nat, s: State, trace: seq<Event>, r: nat, c: nat)
    requires r < |s.requests| && c < |s.creations| && HasItsResult(s, r, c)
    ensures var t := Run(max, s, trace);
            && HasItsResult(t, r, c)
            && (t.creations[c].pc.Done? ==>
                  Step(max, t, Deliver(r)).requests[r].pc == Answer(t.creations[c].pc.result))
    decreases |trace|
  {
    hide Step, HasItsResult;
    if trace == [] {
      DeliverAnswers(max, s, r, c);
      ResultIsThere(s, r, c);
    } else {
      StepKeepsResult(max, s, trace[0], r, c);
      ResultIsThere(Step(max, s, trace[0]), r, c);
      JoinedIsAnswered(max, Step(max, s, trace[0]), trace[1..], r, c);
    }
  }

  lemma ResultIsThere(s: State, r: nat, c: nat)
    requires HasItsResult(s, r, c)
    ensures r < |s.requests| && c < |s.creations|
  {
  }

  lemma RunFirst(max: nat, s: State, e: Event, rest: seq<Event>)
    ensures Run(max, s, [e] + rest) == Run(max, Step(max, s, e), rest)
  {
    hide Step;
    assert ([e] + rest)[1..] == rest;
  }

  /** What is left when creation `c` has succeeded from `s` on. */
  function Succeeded(s: State, c: nat): State
    requires c < |s.creations|
  {
    var k := s.creations[c];
    SetCreation(s, c, Done(Some(|s.dirs|)))
      .(jobs := s.jobs[k.session := Job(|s.spawned|, |s.dirs|, k.fingerprint)], pending := s.pending - {k.session},
        spawned := s.spawned + [k.session], dirs := s.dirs + [k.fingerprint])
  }

  lemma SuccessSteps(max: nat, s: State, c: nat)
    requires c < |s.creations| && s.creations[c].pc.MakingDir?
    ensures var k := s.creations[c];
            var made := SetCreation(s, c, Preparing(|s.dirs|)).(dirs := s.dirs + [k.fingerprint]);
            var registered := Register(made, c);
            var settled := SetCreation(registered, c, Settled(Some(|s.dirs|)));
            && Step(max, s, MadeDir(c, true)) == made
            && Step(max, made, Spawn(c, Spawned)) == registered
            && Step(max, registered, Poll(c, true, false)) == settled
            && Step(max, settled, Finally(c)) == Succeeded(s, c)
  {
  }

  lemma SuccessRun(max: nat, s: State, c: nat, rest: seq<Event>)
    requires c < |s.creations| && s.creations[c].pc.MakingDir?
    ensures Run(max, s, [MadeDir(c, true)] + ([Spawn(c, Spawned)] + ([Poll(c, true, false)] + ([Finally(c)] + rest))))
         == Run(max, Succeeded(s, c), rest)
  {
    hide Step, Succeeded, Run;
    var k := s.creations[c];
    var made := SetCreation(s, c, Preparing(|s.dirs|)).(dirs := s.dirs + [k.fingerprint]);
    var registered := Register(made, c);
    var settled := SetCreation(registered, c, Settled(Some(|s.dirs|)));
    SuccessSteps(max, s, c);
    RunFirst(max, s, MadeDir(c, true), [Spawn(c, Spawned)] + ([Poll(c, true, false)] + ([Finally(c)] + rest)));
    RunFirst(max, made, Spawn(c, Spawned), [Poll(c, true, false)] + ([Finally(c)] + rest));
    RunFirst(max, registered, Poll(c, true, false), [Finally(c)] + rest);
    RunFirst(max, settled, Finally(c), rest);
  }

  lemma RefusedRun(max: nat, s: State, c: nat, rest: seq<Event>)
    requires c < |s.creations| && s.creations[c].pc.Refused?
    ensures Run(max, s, [MadeDir(c, true)] + ([Spawn(c, Spawned)] + ([Poll(c, true, false)] + ([Finally(c)] + rest))))
         == Run(max, SetCreation(s, c, Done(None)).(pending := s.pending - {s.creations[c].session}), rest)
  {
    hide Run;
    RunFirst(max, s, MadeDir(c, true), [Spawn(c, Spawned)] + ([Poll(c, true, false)] + ([Finally(c)] + rest)));
    RunFirst(max, s, Spawn(c, Spawned), [Poll(c, true, false)] + ([Finally(c)] + rest));
    RunFirst(max, s, Poll(c, true, false), [Finally(c)] + rest);
    RunFirst(max, s, Finally(c), rest);
  }

  /** A request for the session comes from `s`, and all goes well for the creation it starts. */
  function Asking(s: State, session: Session, fp: Fingerprint): seq<Event> {
    var c, r := |s.creations|, |s.requests|;
    [Ensure(session, fp)] + ([MadeDir(c, true)] + ([Spawn(c, Spawned)]
    + ([Poll(c, true, false)] + ([Finally(c)] + [Deliver(r)]))))
  }

  /**
    A session with no job and no creation in flight is served exactly when there is room: the
    request returns a directory made for its fingerprint, whose job is registered with a running
    child; without room it throws and leaves nothing behind.
   */
  lemma ServedExactly(max: nat, s: State, session: Session, fp: Fingerprint)
    requires session !in s.jobs && session !in s.pending
    ensures var t := Run(max, s, Asking(s, session, fp));
            var pc := if |s.jobs| + |s.pending| < max then Returned(|s.dirs|) else Threw;
            && t.requests == s.requests + [Request(session, fp, pc)]
            && t.pending == s.pending && t.signalled == s.signalled
            && if |s.jobs| + |s.pending| < max
               then t.jobs == s.jobs[session := Job(|s.spawned|, |s.dirs|, fp)]
                    && t.dirs == s.dirs + [fp] && t.spawned == s.spawned + [session]
               else t.jobs == s.jobs && t.dirs == s.dirs && t.spawned == s.spawned
  {
    hide Run;
    var c, r := |s.creations|, |s.requests|;
    var u := Step(max, s, Ensure(session, fp));
    RunFirst(max, s, Ensure(session, fp), [MadeDir(c, true)] + ([Spawn(c, Spawned)]
                                         + ([Poll(c, true, false)] + ([Finally(c)] + [Deliver(r)]))));
    assert (s.pending[session := c]) - {session} == s.pending;
    var ended: State;
    if |s.jobs| + |s.pending| < max {
      SuccessRun(max, u, c, [Deliver(r)]);
      ended := Succeeded(u, c);
    } else {
      RefusedRun(max, u, c, [Deliver(r)]);
      ended := SetCreation(u, c, Done(None)).(pending := u.pending - {session});
    }
    RunFirst(max, ended, Deliver(r), []);
    RunEmpty(max, Step(max, ended, Deliver(r)));
    assert [Deliver(r)] + [] == [Deliver(r)];
  }

  lemma RunEmpty(max: nat, s: State)
    ensures Run(max, s, []) == s
  {
  }

  /** So the first request is, from the start, whenever any transcode is allowed. */
  lemma FirstRequestServed(max: nat, session: Session, fp: Fingerprint)
    requires 1 <= max
    ensures Run(max, INITIAL, Asking(INITIAL, session, fp)).requests == [Request(session, fp, Returned(0))]
  {
    hide Run, Asking;
    ServedExactly(max, INITIAL, session, fp);
  }

  /** Request `r` has joined the session's creation in flight, or waits for it if it is for another fingerprint. */
  predicate Attends(s: State, r: nat) {
    && r < |s.requests| && s.requests[r].session in s.pending
    && var c := s.pending[s.requests[r].session];
       && c < |s.creations|
       && s.requests[r].pc == if s.creations[c].fingerprint == s.requests[r].fingerprint then Joining(c) else Waiting(c)
  }

  /** What a look at the jobs leads to: reuse, a kill, or attending a creation. */
  ghost predicate Looked(s: State, t: State, r: nat) {
    && r < |t.requests|
    && var q := t.requests[r];
       if q.session !in s.jobs then t.jobs == s.jobs && Attends(t, r)
       else if s.jobs[q.session].fingerprint == q.fingerprint
       then t.jobs == s.jobs && t.creations == s.creations && q.pc == Returned(s.jobs[q.session].dir)
       else q.session !in t.jobs && s.jobs[q.session].child in t.signalled && q.pc == Killing
  }

  predicate WaitIsOver(s: State, r: nat)
    requires r < |s.requests|
  {
    var pc := s.requests[r].pc;
    pc.Waiting? && pc.creation < |s.creations| && s.creations[pc.creation].pc.Done?
  }

  /**
    A request looks at the jobs when it is made and again when a creation it waited for is done,
    and attends the session's creation when the kill it waited for is done.
   */
  lemma RequestsGetOn(max: nat, trace: seq<Event>, session: Session, fp: Fingerprint, r: nat)
    ensures var s := Run(max, INITIAL, trace);
            && Looked(s, Step(max, s, Ensure(session, fp)), |s.requests|)
            && (r < |s.requests| && s.requests[r].pc.Killing? ==> Attends(Step(max, s, Killed(r)), r))
            && (r < |s.requests| && WaitIsOver(s, r) ==> Looked(s, Step(max, s, Deliver(r)), r))
  {
    Reachable(max, trace);
    var s := Run(max, INITIAL, trace);
    hide Run, Inv, Enter, Proceed, Looked, Attends;
    PendingHolds(max, s);
    LooksWhenEntering(max, s.(requests := s.requests + [Request(session, fp, Entering)]), |s.requests|);
    LooksAgain(s, s.(requests := s.requests + [Request(session, fp, Entering)]),
               Step(max, s, Ensure(session, fp)), |s.requests|);
    if r < |s.requests| {
      LooksWhenEntering(max, s, r);
      AttendsWhenProceeding(max, s, r);
    }
  }

  lemma PendingHolds(max: nat, s: State)
    requires Inv(max, s)
    ensures PendingOk(s.pending, s.creations)
  {
  }

  lemma LooksWhenEntering(max: nat, s: State, r: nat)
    requires r < |s.requests| && PendingOk(s.pending, s.creations)
    ensures Looked(s, Enter(max, s, r), r)
  {
  }

  lemma LooksAgain(s: State, u: State, t: State, r: nat)
    requires Looked(u, t, r) && u == s.(requests := u.requests)
    ensures Looked(s, t, r)
  {
  }

  lemma AttendsWhenProceeding(max: nat, s: State, r: nat)
    requires r < |s.requests| && PendingOk(s.pending, s.creations)
    ensures Attends(Proceed(max, s, r), r)
  {
  }

  /** How much of a creation is left. */
  function CreationRank(pc: CreationPc): nat {
    match pc
    case MakingDir => 5 case Preparing(_) => 4 case Polling(_, _) => 3
    case Discarding => 2 case Aborting => 2 case Settled(_) => 1 case Refused => 1 case Done(_) => 0
  }

  /** What the creation is waiting for. */
  predicate Awaits(pc: CreationPc, e: Event) {
    match pc
    case MakingDir => e.MadeDir?
    case Preparing(_) => e.Spawn?
    case Polling(_, _) => e.Poll?
    case Discarding => e.Discarded?
    case Aborting => e.Aborted?
    case Settled(_) | Refused => e.Finally?
    case Done(_) => false
  }

  /**
    A creation always gets on: whatever it waits for brings it nearer to its end, except a poll
    that finds it neither ready, failed nor too late. A poll that comes too late, or finds it
    failed and not ready, takes the session's job out and signals its child.
   */
  lemma CreationAdvances(max: nat, s: State, e: Event)
    requires OfCreation(e) && e.creation < |s.creations| && Awaits(s.creations[e.creation].pc, e)
    ensures var k, t := s.creations[e.creation], Step(max, s, e);
            && (CreationRank(t.creations[e.creation].pc) < CreationRank(k.pc)
                || (t == s && e.Poll? && !e.ready && !e.expired && k.pc.child !in s.failed))
            && (e.Poll? && (e.expired || (!e.ready && k.pc.child in s.failed)) ==>
                  && k.session !in t.jobs && t.creations[e.creation].pc.Aborting?
                  && (k.session in s.jobs ==> s.jobs[k.session].child in t.signalled))
  {
  }

  /** A child that fails before its job is ready ends the creation at the next poll. */
  lemma FailureIsNoticed(max: nat, s: State, c: nat)
    requires c < |s.creations| && s.creations[c].pc.Polling?
    ensures var t := Step(max, Step(max, s, ChildFails(s.creations[c].pc.child)), Poll(c, false, false));
            t.creations[c].pc.Aborting? && s.creations[c].session !in t.jobs
  {
  }

  /** Reaping a session that keeps to one fingerprint leaves it no job and no unsignalled ffmpeg. */
  lemma ReapLeavesNothing(max: nat, trace: seq<Event>, session: Session, fp: Fingerprint)
    requires AsksFor(trace, session, fp)
    ensures var t := Step(max, Run(max, INITIAL, trace), Reap(session));
            && session !in t.jobs
            && (forall child :: 0 <= child < |t.spawned| && t.spawned[child] == session ==> child in t.signalled)
  {
    UniformSessionHasNoOrphans(max, trace, session, fp);
    hide Run;
  }

  // ---------------------------------------------------------------------------
  // The registry itself, updated in place

  class TranscodeRegistry {
    const maxTranscodes: nat
    var jobs: map<Session, Job>
    var pending: map<Session, nat>
    var creations: seq<Creation>
    var requests: seq<Request>
    var signalled: set<nat>
    var failed: set<nat>
    var spawned: seq<Session>
    ghost var dirs: seq<Fingerprint>

    ghost function View(): State reads this {
      State(jobs, pending, creations, requests, signalled, failed, spawned, dirs)
    }

    constructor (max: nat)
      ensures View() == INITIAL && maxTranscodes == max
    {
      maxTranscodes := max;
      jobs, pending, creations, requests := map[], map[], [], [];
      signalled, failed, spawned, dirs := {}, {}, [], [];
    }

    method Signal(session: Session)
      modifies this`jobs, this`signalled
      ensures View() == Kill(old(View()), session)
    {
      if session in jobs {
        signalled := signalled + {jobs[session].child};
        jobs := jobs - {session};
      }
    }

    method Move(r: nat, pc: RequestPc)
      requires r < |requests|
      modifies this`requests
      ensures View() == SetRequest(old(View()), r, pc)
    {
      requests := requests[r := requests[r].(pc := pc)];
    }

    method Advance(c: nat, pc: CreationPc)
      requires c < |creations|
      modifies this`creations
      ensures View() == SetCreation(old(View()), c, pc)
    {
      creations := creations[c := creations[c].(pc := pc)];
    }

    /** ensureJob up to its first await. */
    method EnsureJob(session: Session, fingerprint: Fingerprint)
      modifies this
      ensures View() == Step(maxTranscodes, old(View()), Ensure(session, fingerprint))
    {
      requests := requests + [Request(session, fingerprint, Entering)];
      Begin(|requests| - 1);
    }

    method Begin(r: nat)
      requires r < |requests|
      modifies this
      ensures View() == Enter(maxTranscodes, old(View()), r)
    {
      var session := requests[r].session;
      if session in jobs {
        if jobs[session].fingerprint == requests[r].fingerprint {
          Move(r, Returned(jobs[session].dir));
        } else {
          Signal(session);
          Move(r, Killing);
        }
      } else {
        Continue(r);
      }
    }

    /** ensureJob after its kill, or when there was no job: coalesce or create. */
    method Continue(r: nat)
      requires r < |requests|
      modifies this
      ensures View() == Proceed(maxTranscodes, old(View()), r)
    {
      var q := requests[r];
      if q.session in pending {
        var c := pending[q.session];
        if c < |creations| && creations[c].fingerprint == q.fingerprint {
          Move(r, Joining(c));
        } else {
          Move(r, Waiting(c));
        }
      } else {
        CreateJob(q.session, q.fingerprint);
        Move(r, Joining(|creations| - 1));
      }
    }

    method CreateJob(session: Session, fingerprint: Fingerprint)
      modifies this`creations, this`pending
      ensures View() == Create(maxTranscodes, old(View()), session, fingerprint)
    {
      var busy := |jobs| + |pending| >= maxTranscodes;
      pending := pending[session := |creations|];
      creations := creations + [Creation(session, fingerprint, if busy then Refused else MakingDir)];
    }

    /** The settlement of an awaited promise. */
    method Resume(r: nat)
      modifies this
      ensures View() == Step(maxTranscodes, old(View()), Deliver(r))
    {
      if r >= |requests| { return; }
      var pc := requests[r].pc;
      if !(pc.Joining? || pc.Waiting?) || pc.creation >= |creations| || !creations[pc.creation].pc.Done? { return; }
      if pc.Waiting? {
        Begin(r);
      } else {
        var result := creations[pc.creation].pc.result;
        Move(r, if result.Some? then Returned(result.value) else Threw);
      }
    }

    /** createJob once the source is probed: spawn and register, or clean up. */
    method SpawnHls(c: nat, outcome: Outcome)
      modifies this
      ensures View() == Step(maxTranscodes, old(View()), Spawn(c, outcome))
    {
      if c >= |creations| || !creations[c].pc.Preparing? { return; }
      var k := creations[c];
      match outcome
      case Spawned =>
        jobs := jobs[k.session := Job(|spawned|, k.pc.dir, k.fingerprint)];
        Advance(c, Polling(k.pc.dir, |spawned|));
        spawned := spawned + [k.session];
      case SpawnThrew => Advance(c, Discarding);
      case PrepareThrew => Advance(c, Settled(None));
    }

    /** One turn of the readiness loop. */
    method PollReady(c: nat, ready: bool, expired: bool)
      modifies this
      ensures View() == Step(maxTranscodes, old(View()), Poll(c, ready, expired))
    {
      if c >= |creations| || !creations[c].pc.Polling? { return; }
      var k := creations[c];
      if !expired && ready {
        Advance(c, Settled(Some(k.pc.dir)));
      } else if expired || k.pc.child in failed {
        Signal(k.session);
        Advance(c, Aborting);
      }
    }

    /** The finally of a creation. */
    method Forget(c: nat)
      modifies this
      ensures View() == Step(maxTranscodes, old(View()), Finally(c))
    {
      if c >= |creations| { return; }
      var k := creations[c];
      if k.pc.Settled? || k.pc.Refused? {
        Advance(c, Done(if k.pc.Settled? then k.pc.result else None));
        pending := pending - {k.session};
      }
    }
  }
}
