/**
  The authenticated loopback proxy's lifecycle (web/src-tauri/src/playback_proxy.rs).

  One accept thread, any number of handler threads, and the lease that may cancel at any time.
  Atomic loads and updates are steps of their own and time passes between any two steps. What a
  handler serves is not modelled. A handler ends by recording its activity and then leaving the
  active count; its thread finishes some time after that.
 */
module PlaybackProxy {
  import opened Wrappers

  const MAX_CONCURRENT_CONNECTIONS: nat := 8

  datatype Handler =
    | Serving
    | Touched(at: nat)   // last_activity recorded, still counted as active
    | Ended(at: nat)     // no longer counted
    | Finished(at: nat)  // the thread is done and can be joined

  datatype Reason = IdleTimeout | MaxLifetime | Cancelled | ListenerFailed

  datatype Pc =
    | Reap | CheckCancelled | CheckLifetime | CheckActive | CheckIdle
    | Accept | CheckAccepted | CheckCapacity | Admit | Spawn
    | Stop(reason: Reason, at: nat)    // the loop is left; cancelled not yet set
    | Drain(reason: Reason, at: nat)   // joining the remaining handlers
    | Exited(reason: Reason, at: nat)

  datatype Config = Config(started: nat, idleTimeout: nat, maxLifetime: nat)

  /** `transfers` and `joined` hold handler numbers; `joined` is every join made, in order. */
  datatype State = State(
    pc: Pc,
    now: nat,
    cancelled: bool,
    active: int,
    lastActivity: nat,
    handlers: seq<Handler>,
    transfers: seq<nat>,
    joined: seq<nat>)

  datatype Accepted = Connection | NothingYet | Failed

  datatype Event =
    | Tick(elapsed: nat)
    | CancelLease
    | HandlerStep(handler: nat)
    | AcceptStep(accepted: Accepted, ok: bool, remaining: seq<nat>, reaped: seq<nat>)

  function Initial(cfg: Config): State {
    State(Reap, cfg.started, false, 0, cfg.started, [], [], [])
  }

  /** A pass over the transfers keeps or joins each handle, and joins only finished ones. */
  ghost predicate ReapOk(before: seq<nat>, remaining: seq<nat>, reaped: seq<nat>, finished: set<nat>) {
    && multiset(remaining) + multiset(reaped) == multiset(before)
    && (forall t :: t in reaped ==> t in finished)
  }

  function FinishedOnes(handlers: seq<Handler>): set<nat> {
    set h | 0 <= h < |handlers| && handlers[h].Finished?
  }

  function HandlerMove(s: State, h: nat): State
    requires h < |s.handlers|
  {
    match s.handlers[h]
    case Serving => s.(handlers := s.handlers[h := Touched(s.now)], lastActivity := s.now)
    case Touched(at) => s.(handlers := s.handlers[h := Ended(at)], active := s.active - 1)
    case Ended(at) => s.(handlers := s.handlers[h := Finished(at)])
    case Finished(_) => s
  }

  /** The accept thread's next step. */
  ghost function AcceptMove(cfg: Config, s: State, e: Event): State
    requires e.AcceptStep?
  {
    match s.pc
    case Reap =>
      if ReapOk(s.transfers, e.remaining, e.reaped, FinishedOnes(s.handlers))
      then s.(pc := CheckCancelled, transfers := e.remaining, joined := s.joined + e.reaped) else s
    case CheckCancelled => s.(pc := if s.cancelled then Stop(Cancelled, s.now) else CheckLifetime)
    case CheckLifetime =>
      s.(pc := if s.now - cfg.started >= cfg.maxLifetime then Stop(MaxLifetime, s.now) else CheckActive)
    case CheckActive => s.(pc := if s.active == 0 then CheckIdle else Accept)
    case CheckIdle =>
      s.(pc := if s.now - s.lastActivity >= cfg.idleTimeout then Stop(IdleTimeout, s.now) else Accept)
    case Accept =>
      (match e.accepted
       case Connection => s.(pc := CheckAccepted)
       case NothingYet => s.(pc := Reap)
       case Failed => s.(pc := Stop(ListenerFailed, s.now)))
    case CheckAccepted =>
      s.(pc := if s.cancelled then Stop(Cancelled, s.now) else if e.ok then CheckCapacity else Reap)
    case CheckCapacity => s.(pc := if s.active >= MAX_CONCURRENT_CONNECTIONS then Reap else Admit)
    case Admit => s.(pc := Spawn, active := s.active + 1)
    case Spawn =>
      s.(pc := Reap, handlers := s.handlers + [Serving], transfers := s.transfers + [|s.handlers|])
    case Stop(reason, at) => s.(pc := Drain(reason, at), cancelled := true)
    case Drain(reason, at) =>
      if s.transfers == [] then s.(pc := Exited(reason, at))
      else if s.transfers[0] in FinishedOnes(s.handlers)
      then s.(transfers := s.transfers[1..], joined := s.joined + [s.transfers[0]]) else s
    case Exited(_, _) => s
  }

  ghost function Step(cfg: Config, s: State, e: Event): State {
    match e
    case Tick(elapsed) => s.(now := s.now + elapsed)
    case CancelLease => s.(cancelled := true)
    case HandlerStep(h) => if h < |s.handlers| then HandlerMove(s, h) else s
    case AcceptStep(_, _, _, _) => AcceptMove(cfg, s, e)
  }

  ghost function Run(cfg: Config, s: State, trace: seq<Event>): State
    decreases |trace|
  {
    if trace == [] then s else Run(cfg, Step(cfg, s, trace[0]), trace[1..])
  }

  // ---------------------------------------------------------------------------
  // The invariant

  predicate Counted(h: Handler) { h.Serving? || h.Touched? }

  /** The handlers still counted as active. */
  function Live(handlers: seq<Handler>): set<nat> {
    set h | 0 <= h < |handlers| && Counted(handlers[h])
  }

  ghost predicate ActiveOk(pc: Pc, active: int, handlers: seq<Handler>) {
    && active == |Live(handlers)| + (if pc.Spawn? then 1 else 0)
    && active <= MAX_CONCURRENT_CONNECTIONS
    && (pc.Admit? ==> active < MAX_CONCURRENT_CONNECTIONS)
  }

  /** Every handler ever spawned is held or has been joined, exactly once. */
  ghost predicate HandlesOk(handlers: seq<Handler>, transfers: seq<nat>, joined: seq<nat>) {
    && (forall h: nat :: h < |handlers| ==> (multiset(transfers) + multiset(joined))[h] == 1)
    && (forall h: nat :: h >= |handlers| ==> (multiset(transfers) + multiset(joined))[h] == 0)
    && (forall h :: h in joined ==> h in FinishedOnes(handlers))
  }

  /** Once the accept thread has seen an empty count, no handler is left. */
  predicate NoneLive(handlers: seq<Handler>) {
    forall h :: 0 <= h < |handlers| ==> !Counted(handlers[h])
  }

  /** Every recorded end lies at or before `at`. */
  predicate EndedBy(handlers: seq<Handler>, at: nat) {
    forall h :: 0 <= h < |handlers| && !handlers[h].Serving? ==> handlers[h].at <= at
  }

  /** Stopping for idleness at `at` was not too soon. */
  predicate IdleOk(cfg: Config, handlers: seq<Handler>, at: nat) {
    && NoneLive(handlers)
    && cfg.started + cfg.idleTimeout <= at
    && (forall h :: 0 <= h < |handlers| && !handlers[h].Serving? ==> handlers[h].at + cfg.idleTimeout <= at)
  }

  predicate PcOk(cfg: Config, pc: Pc, handlers: seq<Handler>) {
    match pc
    case CheckIdle => NoneLive(handlers)
    case Stop(IdleTimeout, at) => IdleOk(cfg, handlers, at)
    case Drain(IdleTimeout, at) => IdleOk(cfg, handlers, at)
    case Exited(IdleTimeout, at) => IdleOk(cfg, handlers, at)
    case _ => true
  }

  ghost predicate Inv(cfg: Config, s: State) {
    && ActiveOk(s.pc, s.active, s.handlers)
    && HandlesOk(s.handlers, s.transfers, s.joined)
    && EndedBy(s.handlers, s.lastActivity)
    && cfg.started <= s.lastActivity <= s.now
    && PcOk(cfg, s.pc, s.handlers)
    && (s.pc.Exited? ==> s.transfers == [])
  }

  lemma HandlerKeepsActive(s: State, h: nat)
    requires ActiveOk(s.pc, s.active, s.handlers) && h < |s.handlers|
    ensures var t := HandlerMove(s, h); ActiveOk(t.pc, t.active, t.handlers)
  {
    var t := HandlerMove(s, h);
    if s.handlers[h].Touched? {
      assert Live(t.handlers) == Live(s.handlers) - {h};
    } else {
      assert Live(t.handlers) == Live(s.handlers);
    }
  }

  lemma HandlerKeepsHandles(s: State, h: nat)
    requires HandlesOk(s.handlers, s.transfers, s.joined) && h < |s.handlers|
    ensures var t := HandlerMove(s, h); HandlesOk(t.handlers, t.transfers, t.joined)
  {
    assert FinishedOnes(s.handlers) <= FinishedOnes(HandlerMove(s, h).handlers);
  }

  lemma HandlerKeepsInv(cfg: Config, s: State, h: nat)
    requires Inv(cfg, s) && h < |s.handlers|
    ensures Inv(cfg, HandlerMove(s, h))
  {
    HandlerKeepsActive(s, h);
    HandlerKeepsHandles(s, h);
  }

  lemma SpawnKeepsActive(s: State)
    requires ActiveOk(s.pc, s.active, s.handlers) && s.pc.Spawn?
    ensures ActiveOk(Reap, s.active, s.handlers + [Serving])
  {
    assert Live(s.handlers + [Serving]) == Live(s.handlers) + {|s.handlers|};
  }

  lemma SpawnKeepsHandles(s: State)
    requires HandlesOk(s.handlers, s.transfers, s.joined)
    ensures HandlesOk(s.handlers + [Serving], s.transfers + [|s.handlers|], s.joined)
  {
    assert FinishedOnes(s.handlers) <= FinishedOnes(s.handlers + [Serving]);
    var n := |s.handlers|;
    assert multiset(s.transfers + [n]) + multiset(s.joined)
        == (multiset(s.transfers) + multiset(s.joined)) + multiset{n};
    forall h: nat ensures (multiset(s.transfers + [n]) + multiset(s.joined))[h] == if h <= n then 1 else 0 {
      assert (multiset(s.transfers) + multiset(s.joined))[h] == if h < n then 1 else 0;
    }
  }

  lemma ReapKeepsHandles(s: State, remaining: seq<nat>, reaped: seq<nat>)
    requires HandlesOk(s.handlers, s.transfers, s.joined)
    requires ReapOk(s.transfers, remaining, reaped, FinishedOnes(s.handlers))
    ensures HandlesOk(s.handlers, remaining, s.joined + reaped)
  {
    assert multiset(remaining) + multiset(s.joined + reaped) == multiset(s.transfers) + multiset(s.joined);
  }

  lemma NoneLiveWhenEmpty(handlers: seq<Handler>)
    requires |Live(handlers)| == 0
    ensures NoneLive(handlers)
  {
    forall h | 0 <= h < |handlers| ensures !Counted(handlers[h]) {
      assert h !in Live(handlers);
    }
  }

  /** The steps that decide whether to go on. */
  predicate Decides(pc: Pc) {
    pc.CheckCancelled? || pc.CheckLifetime? || pc.CheckActive? || pc.CheckIdle? || pc.Accept?
    || pc.CheckAccepted? || pc.CheckCapacity? || pc.Stop? || pc.Exited?
  }

  lemma DecisionKeepsInv(cfg: Config, s: State, e: Event)
    requires Inv(cfg, s) && e.AcceptStep? && Decides(s.pc)
    ensures Inv(cfg, AcceptMove(cfg, s, e))
  {
    if s.pc.CheckActive? && s.active == 0 { NoneLiveWhenEmpty(s.handlers); }
  }

  lemma AcceptKeepsInv(cfg: Config, s: State, e: Event)
    requires Inv(cfg, s) && e.AcceptStep?
    ensures Inv(cfg, AcceptMove(cfg, s, e))
  {
    match s.pc
    case Reap =>
      if ReapOk(s.transfers, e.remaining, e.reaped, FinishedOnes(s.handlers)) {
        ReapKeepsHandles(s, e.remaining, e.reaped);
      }
    case Admit =>
    case Spawn =>
      SpawnKeepsActive(s);
      SpawnKeepsHandles(s);
    case Drain(_, _) =>
      if s.transfers != [] && s.transfers[0] in FinishedOnes(s.handlers) {
        assert s.transfers == [s.transfers[0]] + s.transfers[1..];
        ReapKeepsHandles(s, s.transfers[1..], [s.transfers[0]]);
      }
    case _ => DecisionKeepsInv(cfg, s, e);
  }

  lemma StepKeepsInv(cfg: Config, s: State, e: Event)
    requires Inv(cfg, s)
    ensures Inv(cfg, Step(cfg, s, e))
  {
    match e
    case HandlerStep(h) => if h < |s.handlers| { HandlerKeepsInv(cfg, s, h); }
    case AcceptStep(_, _, _, _) => AcceptKeepsInv(cfg, s, e);
    case _ =>
  }

  lemma {:induction false} RunKeepsInv(cfg: Config, s: State, trace: seq<Event>)
    requires Inv(cfg, s)
    ensures Inv(cfg, Run(cfg, s, trace))
    decreases |trace|
  {
    if trace != [] {
      StepKeepsInv(cfg, s, trace[0]);
      RunKeepsInv(cfg, Step(cfg, s, trace[0]), trace[1..]);
    }
  }

  lemma Reachable(cfg: Config, trace: seq<Event>)
    ensures Inv(cfg, Run(cfg, Initial(cfg), trace))
  {
    assert Live([]) == {};
    RunKeepsInv(cfg, Initial(cfg), trace);
  }

  // ---------------------------------------------------------------------------
  // Main results

  /** Never more than eight handlers are live, and the atomic count never underflows. */
  lemma AtMostEightHandlers(cfg: Config, trace: seq<Event>)
    ensures var s := Run(cfg, Initial(cfg), trace);
            |Live(s.handlers)| <= s.active <= MAX_CONCURRENT_CONNECTIONS
  {
    Reachable(cfg, trace);
  }

  /** The accept thread has stopped for idleness at time `at`. */
  predicate StoppedIdle(pc: Pc, at: nat) {
    pc == Stop(IdleTimeout, at) || pc == Drain(IdleTimeout, at) || pc == Exited(IdleTimeout, at)
  }

  /**
    The proxy never stops for idleness while a handler is live, nor sooner than the idle timeout
    after it started or after any handler recorded its end.
   */
  lemma NeverIdleTooSoon(cfg: Config, trace: seq<Event>, at: nat)
    requires StoppedIdle(Run(cfg, Initial(cfg), trace).pc, at)
    ensures var s := Run(cfg, Initial(cfg), trace);
            && NoneLive(s.handlers)
            && cfg.started + cfg.idleTimeout <= at
            && (forall h :: 0 <= h < |s.handlers| && !s.handlers[h].Serving? ==>
                  s.handlers[h].at + cfg.idleTimeout <= at)
  {
    Reachable(cfg, trace);
  }

  /** When the accept thread exits, every handler thread ever accepted was joined exactly once. */
  lemma JoinsEveryHandlerOnce(cfg: Config, trace: seq<Event>)
    requires Run(cfg, Initial(cfg), trace).pc.Exited?
    ensures var s := Run(cfg, Initial(cfg), trace);
            && (forall h: nat :: multiset(s.joined)[h] == if h < |s.handlers| then 1 else 0)
            && (forall h :: 0 <= h < |s.handlers| ==> s.handlers[h].Finished?)
  {
    Reachable(cfg, trace);
    var s := Run(cfg, Initial(cfg), trace);
    forall h: nat ensures multiset(s.joined)[h] == if h < |s.handlers| then 1 else 0 {
      assert (multiset(s.transfers) + multiset(s.joined))[h] == multiset(s.joined)[h];
    }
    forall h | 0 <= h < |s.handlers| ensures s.handlers[h].Finished? {
      assert multiset(s.joined)[h] == 1;
      assert h in s.joined;
    }
  }

  // ---------------------------------------------------------------------------
  // What cancelling, the time limits and a connection lead to

  /** The loop has been left. */
  predicate Leaving(pc: Pc) { pc.Stop? || pc.Drain? || pc.Exited? }

  /** Past the second look at the cancelled flag. */
  predicate Admitting(pc: Pc) { pc.CheckCapacity? || pc.Admit? || pc.Spawn? }

  /** The handlers there are and the one being admitted. */
  function Committed(s: State): nat {
    |s.handlers| + if Admitting(s.pc) then 1 else 0
  }

  lemma CancelledCommits(cfg: Config, s: State, e: Event)
    requires s.cancelled
    ensures Step(cfg, s, e).cancelled && Committed(Step(cfg, s, e)) <= Committed(s)
  {
  }

  lemma {:induction false} CancelledRun(cfg: Config, s: State, trace: seq<Event>)
    requires s.cancelled
    ensures Run(cfg, s, trace).cancelled && Committed(Run(cfg, s, trace)) <= Committed(s)
    decreases |trace|
  {
    hide Step, Committed;
    if trace != [] {
      CancelledCommits(cfg, s, trace[0]);
      CancelledRun(cfg, Step(cfg, s, trace[0]), trace[1..]);
    }
  }

  /** Once the lease is cancelled at most one more handler is ever spawned, and that only if it was being admitted. */
  lemma CancelledAdmitsNoMore(cfg: Config, before: seq<Event>, after: seq<Event>)
    requires Run(cfg, Initial(cfg), before).cancelled
    ensures var s := Run(cfg, Initial(cfg), before);
            |Run(cfg, s, after).handlers| <= |s.handlers| + if Admitting(s.pc) then 1 else 0
  {
    CancelledRun(cfg, Run(cfg, Initial(cfg), before), after);
  }

  /** The loop is due to be left. */
  predicate Due(cfg: Config, s: State, reason: Reason) {
    match reason
    case Cancelled => s.cancelled
    case MaxLifetime => s.now - cfg.started >= cfg.maxLifetime
    case IdleTimeout =>
      NoneLive(s.handlers) && s.now - s.lastActivity >= cfg.idleTimeout && !Admitting(s.pc) && !s.pc.CheckAccepted?
    case ListenerFailed => false
  }

  /** How many steps the accept thread takes at most before it leaves the loop. */
  function DueRank(reason: Reason, pc: Pc): nat {
    if Leaving(pc) then 0
    else
      match reason
      case Cancelled =>
        (match pc
         case CheckLifetime => 6 case CheckActive => 5 case CheckIdle => 4 case Accept => 3 case CheckAccepted => 1
         case CheckCapacity => 5 case Admit => 4 case Spawn => 3 case Reap => 2 case _ => 1)
      case IdleTimeout =>
        (match pc
         case Accept => 6 case Reap => 5 case CheckCancelled => 4 case CheckLifetime => 3 case CheckActive => 2
         case _ => 1)
      case _ =>
        (match pc
         case CheckActive => 10 case CheckIdle => 9 case Accept => 8 case CheckAccepted => 7 case CheckCapacity => 6
         case Admit => 5 case Spawn => 4 case Reap => 3 case CheckCancelled => 2 case _ => 1)
  }

  /** A connection ends idleness; nothing undoes the other reasons. */
  predicate Undoes(s: State, e: Event, reason: Reason) {
    reason.IdleTimeout? && s.pc.Accept? && e.AcceptStep? && e.accepted.Connection?
  }

  lemma StepKeepsDue(cfg: Config, s: State, e: Event, reason: Reason)
    requires Due(cfg, s, reason) && !Undoes(s, e, reason)
    ensures Due(cfg, Step(cfg, s, e), reason)
  {
  }

  lemma NoneLiveIsInactive(s: State)
    requires ActiveOk(s.pc, s.active, s.handlers) && NoneLive(s.handlers) && !s.pc.Spawn?
    ensures s.active == 0
  {
    assert Live(s.handlers) == {};
  }

  /** The accept thread gets on with this step. */
  ghost predicate Moves(cfg: Config, s: State, e: Event) {
    e.AcceptStep? && Step(cfg, s, e).pc != s.pc
  }

  /** When the loop is due to be left, every step of the accept thread brings it nearer to leaving. */
  lemma DueAdvances(cfg: Config, s: State, e: Event, reason: Reason)
    requires Inv(cfg, s) && Due(cfg, s, reason) && !Undoes(s, e, reason)
    ensures var t := Step(cfg, s, e);
            if Moves(cfg, s, e) && !Leaving(s.pc) then DueRank(reason, t.pc) < DueRank(reason, s.pc)
            else DueRank(reason, t.pc) == DueRank(reason, s.pc)
    ensures !Leaving(s.pc) && e.AcceptStep? ==>
              (Moves(cfg, s, e) <==>
               (s.pc.Reap? ==> ReapOk(s.transfers, e.remaining, e.reaped, FinishedOnes(s.handlers))))
  {
    if reason.IdleTimeout? { NoneLiveIsInactive(s); }
  }

  /** How the loop becomes due to be left: by the lease, and by time passing. */
  lemma BecomesDue(cfg: Config, before: seq<Event>)
    ensures var s := Run(cfg, Initial(cfg), before);
            && Due(cfg, Step(cfg, s, CancelLease), Cancelled)
            && Due(cfg, Step(cfg, s, Tick(cfg.maxLifetime)), MaxLifetime)
            && (NoneLive(s.handlers) && !Admitting(s.pc) && !s.pc.CheckAccepted? ==>
                  Due(cfg, Step(cfg, s, Tick(cfg.idleTimeout)), IdleTimeout))
  {
    Reachable(cfg, before);
  }

  /** For idleness: no connection comes. */
  predicate NeverUndone(trace: seq<Event>, reason: Reason) {
    reason.IdleTimeout? ==> forall i :: 0 <= i < |trace| && trace[i].AcceptStep? ==> !trace[i].accepted.Connection?
  }

  /** The steps in which the accept thread got on. */
  ghost function Moved(cfg: Config, s: State, trace: seq<Event>): nat
    decreases |trace|
  {
    if trace == [] then 0
    else (if Moves(cfg, s, trace[0]) then 1 else 0) + Moved(cfg, Step(cfg, s, trace[0]), trace[1..])
  }

  lemma LeavingStays(cfg: Config, s: State, e: Event)
    requires Leaving(s.pc)
    ensures Leaving(Step(cfg, s, e).pc)
  {
  }

  lemma {:induction false} RunStaysLeaving(cfg: Config, s: State, trace: seq<Event>)
    requires Leaving(s.pc)
    ensures Leaving(Run(cfg, s, trace).pc)
    decreases |trace|
  {
    hide Step;
    if trace != [] {
      LeavingStays(cfg, s, trace[0]);
      RunStaysLeaving(cfg, Step(cfg, s, trace[0]), trace[1..]);
    }
  }

  lemma {:induction false} DueRun(cfg: Config, s: State, trace: seq<Event>, reason: Reason)
    requires Inv(cfg, s) && Due(cfg, s, reason) && NeverUndone(trace, reason)
    ensures Leaving(Run(cfg, s, trace).pc)
            || Moved(cfg, s, trace) + DueRank(reason, Run(cfg, s, trace).pc) <= DueRank(reason, s.pc)
    decreases |trace|
  {
    hide Step, Inv, Due, DueRank, Moves;
    if trace != [] {
      var t := Step(cfg, s, trace[0]);
      if Leaving(s.pc) {
        RunStaysLeaving(cfg, s, trace);
      } else {
        DueAdvances(cfg, s, trace[0], reason);
        StepKeepsDue(cfg, s, trace[0], reason);
        StepKeepsInv(cfg, s, trace[0]);
        NotMovedIsPositive(reason, s.pc);
        DueRun(cfg, t, trace[1..], reason);
      }
    }
  }

  lemma NotMovedIsPositive(reason: Reason, pc: Pc)
    ensures DueRank(reason, pc) == 0 <==> Leaving(pc)
  {
  }

  /**
    Once the lease is cancelled, the lifetime is over, or the proxy has idled for its timeout with
    no handler live and no connection coming, the accept thread leaves its loop within ten steps,
    whatever the handlers and the clock do.
   */
  lemma DueIsLeft(cfg: Config, before: seq<Event>, after: seq<Event>, reason: Reason)
    requires Due(cfg, Run(cfg, Initial(cfg), before), reason) && NeverUndone(after, reason)
    requires Moved(cfg, Run(cfg, Initial(cfg), before), after) >= 10
    ensures Leaving(Run(cfg, Run(cfg, Initial(cfg), before), after).pc)
  {
    var s := Run(cfg, Initial(cfg), before);
    Reachable(cfg, before);
    DueRun(cfg, s, after, reason);
    RankBounds(reason, s.pc);
    NotMovedIsPositive(reason, Run(cfg, s, after).pc);
  }

  lemma RankBounds(reason: Reason, pc: Pc)
    ensures DueRank(reason, pc) <= 10
  {
  }

  lemma RunFirst(cfg: Config, s: State, e: Event, rest: seq<Event>)
    ensures Run(cfg, s, [e] + rest) == Run(cfg, Step(cfg, s, e), rest)
  {
    hide Step;
    assert ([e] + rest)[1..] == rest;
  }

  /** How many steps a handler still takes. */
  function HandlerRank(h: Handler): nat {
    match h
    case Serving => 3 case Touched(_) => 2 case Ended(_) => 1 case Finished(_) => 0
  }

  /** What the accept thread still joins, and what its next handle still needs. */
  function DrainRank(s: State): nat {
    if s.pc.Exited? then 0 else if s.pc.Drain? then 1 + |s.transfers| else 2 + |s.transfers|
  }

  function FrontRank(s: State): nat {
    if s.pc.Drain? && s.transfers != [] && s.transfers[0] < |s.handlers|
    then HandlerRank(s.handlers[s.transfers[0]]) else 0
  }

  /** The step that gets a left loop to its exit: a join, or the handler it waits for. */
  lemma DrainAdvances(cfg: Config, s: State) returns (e: Event)
    requires Inv(cfg, s) && Leaving(s.pc) && !s.pc.Exited?
    ensures var t := Step(cfg, s, e);
            DrainRank(t) < DrainRank(s) || (DrainRank(t) == DrainRank(s) && FrontRank(t) < FrontRank(s))
  {
    if s.pc.Drain? && s.transfers != [] && s.transfers[0] !in FinishedOnes(s.handlers) {
      var h := s.transfers[0];
      assert (multiset(s.transfers) + multiset(s.joined))[h] >= 1;
      e := HandlerStep(h);
    } else {
      e := AcceptStep(NothingYet, true, [], []);
    }
  }

  lemma {:induction false} ExitRun(cfg: Config, s: State) returns (after: seq<Event>)
    requires Inv(cfg, s) && Leaving(s.pc)
    ensures Run(cfg, s, after).pc.Exited?
    decreases DrainRank(s), FrontRank(s)
  {
    hide Step, Inv;
    if s.pc.Exited? {
      after := [];
    } else {
      var e := DrainAdvances(cfg, s);
      StepKeepsInv(cfg, s, e);
      LeavingStays(cfg, s, e);
      var rest := ExitRun(cfg, Step(cfg, s, e));
      RunFirst(cfg, s, e, rest);
      after := [e] + rest;
    }
  }

  /** A loop that was left can always finish, with every handler joined. */
  lemma LeftLoopExits(cfg: Config, before: seq<Event>) returns (after: seq<Event>)
    requires Leaving(Run(cfg, Initial(cfg), before).pc)
    ensures Run(cfg, Run(cfg, Initial(cfg), before), after).pc.Exited?
  {
    Reachable(cfg, before);
    after := ExitRun(cfg, Run(cfg, Initial(cfg), before));
  }

  /** The accept thread's own steps, a connection first. */
  function Accepting(ok: bool): seq<Event> {
    var next := AcceptStep(NothingYet, ok, [], []);
    [AcceptStep(Connection, ok, [], [])] + ([next] + [next])
  }

  /**
    A connection is served exactly when the lease is not cancelled, its socket can be set up and
    fewer than eight handlers are active: then the accept thread's next steps spawn one handler for
    it, and otherwise they spawn none.
   */
  lemma ServedExactly(cfg: Config, s: State, ok: bool)
    requires s.pc.Accept? && !s.cancelled
    ensures var next := AcceptStep(NothingYet, ok, [], []);
            var t := Run(cfg, s, Accepting(ok) + [next]);
            if ok && s.active < MAX_CONCURRENT_CONNECTIONS
            then t.pc.Spawn? && t.active == s.active + 1
                 && Step(cfg, t, next) == s.(pc := Reap, active := s.active + 1, handlers := s.handlers + [Serving],
                                             transfers := s.transfers + [|s.handlers|])
            else t.handlers == s.handlers && t.active == s.active && !Admitting(t.pc)
  {
    hide Run, Step;
    var next := AcceptStep(NothingYet, ok, [], []);
    var first := AcceptStep(Connection, ok, [], []);
    assert Accepting(ok) + [next] == [first] + ([next] + ([next] + [next]));
    AcceptingSteps(cfg, s, ok);
    RunFirst(cfg, s, first, [next] + ([next] + [next]));
    var t := Step(cfg, s, first);
    RunFirst(cfg, t, next, [next] + [next]);
    var u := Step(cfg, t, next);
    RunFirst(cfg, u, next, [next]);
    var v := Step(cfg, u, next);
    RunFirst(cfg, v, next, []);
    RunEmpty(cfg, Step(cfg, v, next));
    assert [next] + [] == [next];
  }

  lemma RunEmpty(cfg: Config, s: State)
    ensures Run(cfg, s, []) == s
  {
  }

  lemma AcceptingSteps(cfg: Config, s: State, ok: bool)
    requires s.pc.Accept? && !s.cancelled
    ensures var next := AcceptStep(NothingYet, ok, [], []);
            var u := Step(cfg, Step(cfg, s, AcceptStep(Connection, ok, [], [])), next);
            var t := Step(cfg, Step(cfg, u, next), next);
            if ok && s.active < MAX_CONCURRENT_CONNECTIONS
            then t.pc.Spawn? && t.active == s.active + 1
                 && Step(cfg, t, next) == s.(pc := Reap, active := s.active + 1, handlers := s.handlers + [Serving],
                                             transfers := s.transfers + [|s.handlers|])
            else t.handlers == s.handlers && t.active == s.active && !Admitting(t.pc)
  {
    hide ReapOk, FinishedOnes;
    var next := AcceptStep(NothingYet, ok, [], []);
    var t := Step(cfg, s, AcceptStep(Connection, ok, [], []));
    assert t == s.(pc := CheckAccepted);
    var u := Step(cfg, t, next);
    assert u == s.(pc := if ok then CheckCapacity else Reap);
  }

  lemma StepKeepsDrained(cfg: Config, s: State, e: Event)
    requires s.pc.Drain? || s.pc.Exited? ==> s.cancelled
    ensures var t := Step(cfg, s, e);
            t.pc.Drain? || t.pc.Exited? ==> t.cancelled
  {
  }

  lemma {:induction false} RunKeepsDrained(cfg: Config, s: State, trace: seq<Event>)
    requires s.pc.Drain? || s.pc.Exited? ==> s.cancelled
    ensures var t := Run(cfg, s, trace);
            t.pc.Drain? || t.pc.Exited? ==> t.cancelled
    decreases |trace|
  {
    hide Step;
    if trace != [] {
      StepKeepsDrained(cfg, s, trace[0]);
      RunKeepsDrained(cfg, Step(cfg, s, trace[0]), trace[1..]);
    }
  }

  /** Whatever the loop was left for, the flag the handlers watch is set before any of them is joined. */
  lemma DrainingIsCancelled(cfg: Config, trace: seq<Event>)
    requires var s := Run(cfg, Initial(cfg), trace);
             s.pc.Drain? || s.pc.Exited?
    ensures Run(cfg, Initial(cfg), trace).cancelled
  {
    RunKeepsDrained(cfg, Initial(cfg), trace);
  }

  // --- why the loop was left ---

  /** The loop is left only for a reason; `lease` and `failed` tell what has happened so far. */
  predicate Caused(cfg: Config, s: State, lease: bool, failed: bool) {
    && (s.cancelled && !s.pc.Drain? && !s.pc.Exited? ==> lease)
    && (match s.pc
        case Stop(reason, at) => CausedBy(cfg, reason, at, lease, failed)
        case Drain(reason, at) => CausedBy(cfg, reason, at, lease, failed)
        case Exited(reason, at) => CausedBy(cfg, reason, at, lease, failed)
        case _ => true)
  }

  predicate CausedBy(cfg: Config, reason: Reason, at: nat, lease: bool, failed: bool) {
    match reason
    case Cancelled => lease
    case MaxLifetime => cfg.started + cfg.maxLifetime <= at
    case ListenerFailed => failed
    case IdleTimeout => true // NeverIdleTooSoon
  }

  predicate Fails(e: Event) { e.AcceptStep? && e.accepted.Failed? }

  lemma StepKeepsCaused(cfg: Config, s: State, e: Event, lease: bool, failed: bool)
    requires Caused(cfg, s, lease, failed)
    ensures Caused(cfg, Step(cfg, s, e), lease || e.CancelLease?, failed || Fails(e))
  {
  }

  lemma {:induction false} RunKeepsCaused(cfg: Config, s: State, trace: seq<Event>, lease: bool, failed: bool)
    requires Caused(cfg, s, lease, failed)
    ensures Caused(cfg, Run(cfg, s, trace), lease || exists i :: 0 <= i < |trace| && trace[i].CancelLease?,
                   failed || exists i :: 0 <= i < |trace| && Fails(trace[i]))
    decreases |trace|
  {
    hide Step, Caused, Fails;
    if trace != [] {
      StepKeepsCaused(cfg, s, trace[0], lease, failed);
      RunKeepsCaused(cfg, Step(cfg, s, trace[0]), trace[1..],
                     lease || trace[0].CancelLease?, failed || Fails(trace[0]));
      assert forall i :: 0 <= i < |trace| - 1 ==> trace[1..][i] == trace[i + 1];
      assert (exists i :: 0 <= i < |trace| && trace[i].CancelLease?)
        <==> trace[0].CancelLease? || exists i :: 0 <= i < |trace[1..]| && trace[1..][i].CancelLease?;
      assert (exists i :: 0 <= i < |trace| && Fails(trace[i]))
        <==> Fails(trace[0]) || exists i :: 0 <= i < |trace[1..]| && Fails(trace[1..][i]);
    }
  }

  /** The loop is left as cancelled only after the lease was, for its lifetime only when that is over, and so on. */
  lemma LeftForCause(cfg: Config, trace: seq<Event>)
    ensures Caused(cfg, Run(cfg, Initial(cfg), trace), exists i :: 0 <= i < |trace| && trace[i].CancelLease?,
                   exists i :: 0 <= i < |trace| && Fails(trace[i]))
  {
    hide Run, Fails;
    RunKeepsCaused(cfg, Initial(cfg), trace, false, false);
  }

  // ---------------------------------------------------------------------------
  // reap_finished, in place

  /** The accept thread's vector of join handles. */
  class Transfers {
    var handles: seq<nat>

    constructor (handles: seq<nat>)
      ensures this.handles == handles
    {
      this.handles := handles;
    }

    /** Vec::swap_remove: take out one element and move the last into its place. */
    method SwapRemove(index: nat) returns (taken: nat)
      requires index < |handles|
      modifies this
      ensures taken == old(handles[index])
      ensures |handles| == |old(handles)| - 1
      ensures handles[..index] == old(handles[..index])
      ensures multiset(handles) + multiset{taken} == multiset(old(handles))
    {
      taken := handles[index];
      var last := |handles| - 1;
      ghost var was := handles;
      assert was == was[..last] + [was[last]];
      if index == last {
        handles := handles[..last];
      } else {
        handles := handles[index := handles[last]][..last];
        SwapRemoveMultiset(was, index);
      }
    }

    /**
      reap_finished. `finished(k)` is the set of threads that are done at the k-th poll; threads
      keep finishing while the pass runs. Every handle is kept or joined exactly once, only
      finished threads are joined, and none that was finished when the pass began is missed.
     */
    method ReapFinished(finished: nat -> set<nat>) returns (joined: seq<nat>)
      requires forall i, j :: i <= j ==> finished(i) <= finished(j)
      modifies this
      ensures ReapOk(old(handles), handles, joined, finished(|old(handles)|))
      ensures forall t :: t in handles ==> t !in finished(0)
    {
      var index := 0;
      var polls := 0;
      joined := [];
      while index < |handles|
        invariant 0 <= index <= |handles|
        invariant polls + |handles| - index == |old(handles)| && polls >= 0
        invariant multiset(handles) + multiset(joined) == multiset(old(handles))
        invariant forall t :: t in joined ==> t in finished(|old(handles)|)
        invariant forall k :: 0 <= k < index ==> handles[k] !in finished(0)
        decreases |handles| - index
      {
        assert finished(0) <= finished(polls) <= finished(|old(handles)|);
        if handles[index] in finished(polls) {
          ghost var before := handles;
          var transfer := SwapRemove(index);
          joined := joined + [transfer];
          forall k | 0 <= k < index ensures handles[k] !in finished(0) {
            assert handles[k] == handles[..index][k] == before[k];
          }
        } else {
          index := index + 1;
        }
        polls := polls + 1;
      }
    }
  }

  lemma SwapRemoveMultiset(was: seq<nat>, index: nat)
    requires index < |was| - 1
    ensures var last := |was| - 1;
            multiset(was[index := was[last]][..last]) + multiset{was[index]} == multiset(was)
  {
    var last := |was| - 1;
    var swapped := was[index := was[last]];
    assert was == was[..last] + [was[last]];
    assert swapped[..last] == was[..last][index := was[last]];
  }
}
