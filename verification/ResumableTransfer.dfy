/**
  The resumable download transfer (web/src-tauri/src/downloads.rs).

  One destination path and any number of workers. A worker asks for the remote body from an
  offset, opens the destination, buffers chunks, submits positioned writes one at a time and
  finishes when the stream ends and its writes are flushed. An aborted worker may still take
  any of its steps, and a submitted write may land later and in pieces. Cancelling unlinks the
  path; a writer that has the old file open keeps writing to that file.

  Assumed of the server: the body is fixed, a partial response labelled with an offset carries
  the body from that offset, and 416 is sent only to ranged requests and names the true length.
 */
module ResumableTransfer {
  import opened Wrappers

  type Byte = b: int | 0 <= b < 256

  datatype Worker =
    | Requested(offset: nat)   // spawned; the request is not answered
    | Opening(offset: nat)     // the response is accepted; the open is not done
    | Streaming(file: nat, written: nat, inflight: seq<Byte>, buffered: seq<Byte>)
    | Draining(file: nat, written: nat, inflight: seq<Byte>) // stopped; a write may still land
    | Completed
    | Failed

  /** `disk` holds every file ever created; `dest` is the one the path names. */
  datatype State = State(disk: seq<seq<Byte>>, dest: Option<nat>, workers: seq<Worker>)

  datatype Response = Full | Partial(start: nat) | Unsatisfied | Other

  datatype Event =
    | Begin(resume: bool)            // start or resume a worker
    | Respond(worker: nat, response: Response)
    | OpenDone(worker: nat)
    | Chunk(worker: nat, size: nat)
    | Submit(worker: nat, size: nat)
    | Land(worker: nat, size: nat)
    | Finish(worker: nat)
    | Stop(worker: nat)              // aborted at an await, or failed
    | Unlink                         // cancel or force-stop

  /** A positioned write; a gap past the end of the file reads as zeros. */
  function WriteAt(content: seq<Byte>, position: nat, data: seq<Byte>): seq<Byte> {
    if data == [] then content
    else if position > |content| then content + seq(position - |content|, _ => 0) + data
    else if position + |data| < |content| then content[..position] + data + content[position + |data|..]
    else content[..position] + data
  }

  function Put(s: State, w: nat, worker: Worker): State
    requires w < |s.workers|
  {
    s.(workers := s.workers[w := worker])
  }

  /** The length the file system reports for the destination, 0 when there is none. */
  function DestLength(s: State): nat {
    if s.dest.Some? && s.dest.value < |s.disk| then |s.disk[s.dest.value]| else 0
  }

  function Answer(body: seq<Byte>, offset: nat, response: Response): Worker {
    match response
    case Full => Opening(0)
    case Partial(start) =>
      if offset == 0 then Opening(0) else if start == offset then Opening(offset) else Failed
    case Unsatisfied => if offset == |body| then Completed else Failed
    case Other => Failed
  }

  /** Opening creates the file if the path names none, and truncates exactly at offset zero. */
  function Open(s: State, w: nat, offset: nat): State
    requires w < |s.workers|
  {
    if s.dest.Some? && s.dest.value < |s.disk| then
      var i := s.dest.value;
      var ready := if offset == 0 then s.(disk := s.disk[i := []]) else s;
      Put(ready, w, Streaming(i, offset, [], []))
    else
      Put(s.(disk := s.disk + [[]], dest := Some(|s.disk|)), w, Streaming(|s.disk|, offset, [], []))
  }

  /** bytes_done. */
  function Done(worker: Worker): nat
    requires worker.Streaming?
  {
    worker.written + |worker.inflight| + |worker.buffered|
  }

  function LandPart(s: State, w: nat, size: nat): State
    requires w < |s.workers| && (s.workers[w].Streaming? || s.workers[w].Draining?)
    requires s.workers[w].file < |s.disk| && 0 < size <= |s.workers[w].inflight|
  {
    var k := s.workers[w];
    var content := WriteAt(s.disk[k.file], k.written, k.inflight[..size]);
    Put(s.(disk := s.disk[k.file := content]), w,
        k.(written := k.written + size, inflight := k.inflight[size..]))
  }

  /** One event for worker `w`; an event that is not possible leaves the state alone. */
  function WorkerStep(body: seq<Byte>, s: State, w: nat, e: Event): State
    requires w < |s.workers|
  {
    var k := s.workers[w];
    match e
    case Respond(_, response) => if k.Requested? then Put(s, w, Answer(body, k.offset, response)) else s
    case OpenDone(_) => if k.Opening? then Open(s, w, k.offset) else s
    case Chunk(_, size) =>
      if k.Streaming? && Done(k) + size <= |body|
      then Put(s, w, k.(buffered := k.buffered + body[Done(k)..Done(k) + size])) else s
    case Submit(_, size) =>
      if k.Streaming? && k.inflight == [] && size <= |k.buffered|
      then Put(s, w, k.(inflight := k.buffered[..size], buffered := k.buffered[size..])) else s
    case Land(_, size) =>
      if (k.Streaming? || k.Draining?) && k.file < |s.disk| && 0 < size <= |k.inflight|
      then LandPart(s, w, size) else s
    case Finish(_) => if Finishable(body, k) then Put(s, w, Completed) else s
    case Stop(_) =>
      Put(s, w, if k.Streaming? then Draining(k.file, k.written, k.inflight)
                else if k.Draining? || k.Completed? then k else Failed)
    case _ => s
  }

  /** The stream has delivered everything and the flush has landed it. */
  predicate Finishable(body: seq<Byte>, k: Worker) {
    k.Streaming? && Done(k) == |body| && k.inflight == [] && k.buffered == []
  }

  function Step(body: seq<Byte>, s: State, e: Event): State {
    match e
    case Begin(resume) => s.(workers := s.workers + [Requested(if resume then DestLength(s) else 0)])
    case Unlink => s.(dest := None)
    case _ => if e.worker < |s.workers| then WorkerStep(body, s, e.worker, e) else s
  }

  function Run(body: seq<Byte>, s: State, trace: seq<Event>): State
    decreases |trace|
  {
    if trace == [] then s else Run(body, Step(body, s, trace[0]), trace[1..])
  }

  // ---------------------------------------------------------------------------
  // The invariant

  /** It has a file open and can still write to it. */
  predicate Live(k: Worker) {
    k.Streaming? || (k.Draining? && k.inflight != [])
  }

  /** `data` is what the body holds from `position`. */
  predicate Holds(body: seq<Byte>, position: nat, data: seq<Byte>) {
    position + |data| <= |body| && data == body[position..position + |data|]
  }

  predicate WorkerOk(body: seq<Byte>, disk: seq<seq<Byte>>, k: Worker) {
    match k
    case Requested(offset) => offset <= |body|
    case Opening(offset) => offset <= |body|
    case Streaming(file, written, inflight, buffered) =>
      && file < |disk| && written <= |disk[file]|
      && Holds(body, written, inflight) && Holds(body, written + |inflight|, buffered)
    case Draining(file, written, inflight) =>
      inflight != [] ==> file < |disk| && written <= |disk[file]| && Holds(body, written, inflight)
    case _ => true
  }

  /** Every file is a prefix of the body and no writer stands past the end of its file. */
  ghost predicate Inv(body: seq<Byte>, s: State) {
    && (s.dest.Some? ==> s.dest.value < |s.disk|)
    && (forall i :: 0 <= i < |s.disk| ==> s.disk[i] <= body)
    && (forall w :: 0 <= w < |s.workers| ==> WorkerOk(body, s.disk, s.workers[w]))
  }

  /** No other writer stands beyond the start of file `i`. */
  predicate NoStaleWriter(s: State, w: nat, i: nat) {
    forall v :: 0 <= v < |s.workers| && v != w && Live(s.workers[v]) && s.workers[v].file == i ==>
      s.workers[v].written == 0
  }

  /**
    The only two steps that can break the invariant: a truncating open needs every other writer
    of the file to stand at its start, and a resuming open needs the file to be at least as long
    as the offset, so not unlinked or truncated since its length was read.
   */
  predicate Safe(s: State, e: Event) {
    e.OpenDone? && e.worker < |s.workers| && s.workers[e.worker].Opening? ==>
      var offset := s.workers[e.worker].offset;
      if offset == 0 then s.dest.Some? ==> NoStaleWriter(s, e.worker, s.dest.value)
      else offset <= DestLength(s)
  }

  predicate SafeRun(body: seq<Byte>, s: State, trace: seq<Event>)
    decreases |trace|
  {
    trace == [] || (Safe(s, trace[0]) && SafeRun(body, Step(body, s, trace[0]), trace[1..]))
  }

  /** Writing what the body holds keeps a prefix a prefix and only ever lengthens it. */
  lemma WriteKeepsPrefix(body: seq<Byte>, content: seq<Byte>, position: nat, data: seq<Byte>)
    requires content <= body && position <= |content| && Holds(body, position, data)
    ensures var after := WriteAt(content, position, data);
            after <= body && |content| <= |after| && position + |data| <= |after|
  {
  }

  lemma LongerKeepsOk(body: seq<Byte>, disk: seq<seq<Byte>>, i: nat, content: seq<Byte>, k: Worker)
    requires i < |disk| && |disk[i]| <= |content| && WorkerOk(body, disk, k)
    ensures WorkerOk(body, disk[i := content], k)
  {
    hide Holds;
  }

  lemma LandingFits(body: seq<Byte>, disk: seq<seq<Byte>>, k: Worker, size: nat)
    requires WorkerOk(body, disk, k) && (k.Streaming? || k.Draining?) && k.file < |disk| && 0 < size <= |k.inflight|
    ensures k.written <= |disk[k.file]| && Holds(body, k.written, k.inflight[..size])
  {
    HoldsSplit(body, k.written, k.inflight, size);
  }

  /** The writer moves on over what has landed. */
  lemma LandedOk(body: seq<Byte>, disk: seq<seq<Byte>>, k: Worker, size: nat, content: seq<Byte>)
    requires WorkerOk(body, disk, k) && (k.Streaming? || k.Draining?) && k.file < |disk|
    requires 0 < size <= |k.inflight| && |disk[k.file]| <= |content| && k.written + size <= |content|
    ensures WorkerOk(body, disk[k.file := content], k.(written := k.written + size, inflight := k.inflight[size..]))
  {
    hide Holds;
    HoldsSplit(body, k.written, k.inflight, size);
  }

  lemma LandKeepsInv(body: seq<Byte>, s: State, w: nat, size: nat)
    requires Inv(body, s) && w < |s.workers| && (s.workers[w].Streaming? || s.workers[w].Draining?)
    requires s.workers[w].file < |s.disk| && 0 < size <= |s.workers[w].inflight|
    ensures Inv(body, LandPart(s, w, size))
    ensures forall i :: 0 <= i < |s.disk| ==> |s.disk[i]| <= |LandPart(s, w, size).disk[i]|
  {
    hide WorkerOk, WriteAt;
    var k := s.workers[w];
    LandingFits(body, s.disk, k, size);
    WriteKeepsPrefix(body, s.disk[k.file], k.written, k.inflight[..size]);
    var t := LandPart(s, w, size);
    LandedOk(body, s.disk, k, size, t.disk[k.file]);
    forall v | 0 <= v < |t.workers| ensures WorkerOk(body, t.disk, t.workers[v]) {
      LongerKeepsOk(body, s.disk, k.file, t.disk[k.file], s.workers[v]);
    }
  }

  /** Opening keeps the invariant exactly when the guard holds. */
  lemma OpenExact(body: seq<Byte>, s: State, w: nat)
    requires Inv(body, s) && w < |s.workers| && s.workers[w].Opening?
    ensures Inv(body, Open(s, w, s.workers[w].offset)) <==> Safe(s, OpenDone(w))
  {
    var offset := s.workers[w].offset;
    var t := Open(s, w, offset);
    assert WorkerOk(body, s.disk, s.workers[w]);
    assert WorkerOk(body, t.disk, t.workers[w]) <==> offset <= DestLength(s) || offset == 0;
    if Safe(s, OpenDone(w)) {
      forall v | 0 <= v < |t.workers| ensures WorkerOk(body, t.disk, t.workers[v]) {
        assert WorkerOk(body, s.disk, s.workers[v]);
      }
    } else if offset == 0 {
      var v :| 0 <= v < |s.workers| && v != w && Live(s.workers[v])
               && s.workers[v].file == s.dest.value && s.workers[v].written != 0;
      assert !WorkerOk(body, t.disk, t.workers[v]);
    }
  }

  lemma PutKeepsInv(body: seq<Byte>, s: State, w: nat, k: Worker)
    requires Inv(body, s) && w < |s.workers| && WorkerOk(body, s.disk, k)
    ensures Inv(body, Put(s, w, k))
  {
  }

  lemma HoldsAppend(body: seq<Byte>, position: nat, data: seq<Byte>, size: nat)
    requires Holds(body, position, data) && position + |data| + size <= |body|
    ensures Holds(body, position, data + body[position + |data|..position + |data| + size])
  {
  }

  lemma HoldsSplit(body: seq<Byte>, position: nat, data: seq<Byte>, size: nat)
    requires Holds(body, position, data) && size <= |data|
    ensures Holds(body, position, data[..size]) && Holds(body, position + size, data[size..])
  {
  }

  /** The event changes its own worker only, and leaves it in order. */
  ghost predicate OnlyWorker(body: seq<Byte>, s: State, w: nat, e: Event)
    requires w < |s.workers|
  {
    var t := WorkerStep(body, s, w, e);
    t == Put(s, w, t.workers[w]) && WorkerOk(body, s.disk, t.workers[w])
  }

  lemma PutBack(s: State, w: nat)
    requires w < |s.workers|
    ensures Put(s, w, s.workers[w]) == s
  {
  }

  lemma ChunkStaysOk(body: seq<Byte>, s: State, w: nat, size: nat)
    requires w < |s.workers| && WorkerOk(body, s.disk, s.workers[w])
    ensures OnlyWorker(body, s, w, Chunk(w, size))
  {
    hide Holds;
    var k := s.workers[w];
    PutBack(s, w);
    if k.Streaming? && Done(k) + size <= |body| {
      HoldsAppend(body, k.written + |k.inflight|, k.buffered, size);
    }
  }

  lemma SubmitStaysOk(body: seq<Byte>, s: State, w: nat, size: nat)
    requires w < |s.workers| && WorkerOk(body, s.disk, s.workers[w])
    ensures OnlyWorker(body, s, w, Submit(w, size))
  {
    hide Holds;
    var k := s.workers[w];
    PutBack(s, w);
    if k.Streaming? && size <= |k.buffered| {
      HoldsSplit(body, k.written + |k.inflight|, k.buffered, size);
    }
  }

  /** Steps that touch no file keep their worker in order. */
  lemma WorkerStaysOk(body: seq<Byte>, s: State, w: nat, e: Event)
    requires w < |s.workers| && WorkerOk(body, s.disk, s.workers[w]) && !e.OpenDone? && !e.Land?
    ensures OnlyWorker(body, s, w, e)
  {
    PutBack(s, w);
    if e.Chunk? {
      ChunkStaysOk(body, s, w, e.size);
    } else if e.Submit? {
      SubmitStaysOk(body, s, w, e.size);
    } else {
      assert s.workers[w].Requested? ==> s.workers[w].offset <= |body|;
    }
  }

  /** Every other step keeps the invariant unconditionally. */
  lemma WorkerKeepsInv(body: seq<Byte>, s: State, w: nat, e: Event)
    requires Inv(body, s) && w < |s.workers| && !e.OpenDone?
    ensures Inv(body, WorkerStep(body, s, w, e))
  {
    assert WorkerOk(body, s.disk, s.workers[w]);
    if e.Land? {
      var k := s.workers[w];
      if (k.Streaming? || k.Draining?) && k.file < |s.disk| && 0 < e.size <= |k.inflight| {
        LandKeepsInv(body, s, w, e.size);
      }
    } else {
      WorkerStaysOk(body, s, w, e);
      PutKeepsInv(body, s, w, WorkerStep(body, s, w, e).workers[w]);
    }
  }

  /**
    The exact condition for positioned writes to keep the file uncorrupted: each step keeps every
    file a prefix of the body, with no writer past its end, if and only if it is safe.
   */
  lemma StepExact(body: seq<Byte>, s: State, e: Event)
    requires Inv(body, s)
    ensures Inv(body, Step(body, s, e)) <==> Safe(s, e)
  {
    match e
    case Begin(resume) =>
      var t := Step(body, s, e);
      assert WorkerOk(body, t.disk, t.workers[|s.workers|]);
      assert forall v :: 0 <= v < |s.workers| ==> t.workers[v] == s.workers[v];
    case Unlink =>
    case OpenDone(w) =>
      if w < |s.workers| && s.workers[w].Opening? { OpenExact(body, s, w); }
    case _ => if e.worker < |s.workers| { WorkerKeepsInv(body, s, e.worker, e); }
  }

  /**
    The main result: whatever the interleaving of workers, late writes, aborts and unlinks, as
    long as its opens are safe, at every moment the destination is absent or a prefix of the
    body and no writer stands past the end of its file.
   */
  lemma {:induction false} AlwaysAPrefix(body: seq<Byte>, s: State, trace: seq<Event>)
    requires Inv(body, s) && SafeRun(body, s, trace)
    ensures Inv(body, Run(body, s, trace))
    decreases |trace|
  {
    if trace != [] {
      StepExact(body, s, trace[0]);
      AlwaysAPrefix(body, Step(body, s, trace[0]), trace[1..]);
    }
  }

  // ---------------------------------------------------------------------------
  // Completion

  /** File `i` is the whole body. */
  predicate Whole(body: seq<Byte>, s: State, i: nat) {
    i < |s.disk| && s.disk[i] == body
  }

  /** A worker that streams to the end completes only over a file equal to the body. */
  lemma FinishMeansWhole(body: seq<Byte>, s: State, w: nat)
    requires Inv(body, s) && w < |s.workers| && Finishable(body, s.workers[w])
    ensures Whole(body, s, s.workers[w].file)
  {
    assert WorkerOk(body, s.disk, s.workers[w]);
  }

  /**
    The 416 shortcut completes over a destination equal to the body exactly when there is one and
    it is still as long as it was when the offset was read.
   */
  lemma UnsatisfiedMeansWhole(body: seq<Byte>, s: State, w: nat)
    requires Inv(body, s) && w < |s.workers| && s.workers[w].Requested?
    requires Answer(body, s.workers[w].offset, Unsatisfied).Completed?
    ensures s.dest.Some? && Whole(body, s, s.dest.value) <==> s.dest.Some? && s.workers[w].offset <= DestLength(s)
  {
    if s.dest.Some? { assert s.disk[s.dest.value] <= body; }
  }

  /** Some bytes have landed, and every worker yet to open asks for a part already on disk. */
  ghost predicate Underway(s: State) {
    && 0 < DestLength(s)
    && (forall w :: 0 <= w < |s.workers| && (s.workers[w].Requested? || s.workers[w].Opening?) ==>
          0 < s.workers[w].offset <= DestLength(s))
  }

  /** Only pauses and resumes, no cancel or fresh start, and every range request is honoured. */
  predicate PauseResume(e: Event) {
    !e.Unlink? && (e.Begin? ==> e.resume) && (e.Respond? ==> !e.response.Full?)
  }

  lemma UnderwayStep(body: seq<Byte>, s: State, e: Event)
    requires Inv(body, s) && Underway(s) && PauseResume(e)
    ensures Safe(s, e)
    ensures Underway(Step(body, s, e))
    ensures Step(body, s, e).dest == s.dest
  {
    hide Holds, WriteAt;
    var t := Step(body, s, e);
    if !e.Begin? && e.worker < |s.workers| {
      var k := s.workers[e.worker];
      assert WorkerOk(body, s.disk, k);
      if e.Land? && (k.Streaming? || k.Draining?) && k.file < |s.disk| && 0 < e.size <= |k.inflight| {
        LandKeepsInv(body, s, e.worker, e.size);
      }
      assert DestLength(s) <= DestLength(t);
      assert forall w :: 0 <= w < |t.workers| && w != e.worker ==> t.workers[w] == s.workers[w];
    }
  }

  /**
    Once bytes are on disk, pausing and resuming needs no further assumption: however late the
    aborted workers' writes land, the destination stays the same file, stays a prefix of the body,
    never shrinks back to empty, and no open is unsafe.
   */
  lemma {:induction false} PauseResumeIsSafe(body: seq<Byte>, s: State, trace: seq<Event>)
    requires Inv(body, s) && Underway(s) && forall i :: 0 <= i < |trace| ==> PauseResume(trace[i])
    ensures SafeRun(body, s, trace)
    ensures var t := Run(body, s, trace);
            Inv(body, t) && Underway(t) && t.dest == s.dest
    decreases |trace|
  {
    if trace != [] {
      assert PauseResume(trace[0]);
      UnderwayStep(body, s, trace[0]);
      StepExact(body, s, trace[0]);
      forall i | 0 <= i < |trace| - 1 ensures PauseResume(trace[1..][i]) { assert PauseResume(trace[i + 1]); }
      PauseResumeIsSafe(body, Step(body, s, trace[0]), trace[1..]);
    }
  }

  /** It streams into a file the path no longer names. */
  predicate Stray(s: State, w: nat) {
    w < |s.workers| && s.workers[w].Streaming? && s.dest != Some(s.workers[w].file)
  }

  lemma StepStraysNobody(body: seq<Byte>, s: State, e: Event, w: nat)
    requires Inv(body, s) && Underway(s) && PauseResume(e) && Stray(Step(body, s, e), w)
    ensures Stray(s, w)
  {
  }

  /** Without an unlink no worker goes astray. */
  lemma {:induction false} RunStraysNobody(body: seq<Byte>, s: State, trace: seq<Event>, w: nat)
    requires Inv(body, s) && Underway(s) && forall i :: 0 <= i < |trace| ==> PauseResume(trace[i])
    requires Stray(Run(body, s, trace), w)
    ensures Stray(s, w)
    decreases |trace|
  {
    if trace != [] {
      assert PauseResume(trace[0]);
      UnderwayStep(body, s, trace[0]);
      StepExact(body, s, trace[0]);
      forall i | 0 <= i < |trace| - 1 ensures PauseResume(trace[1..][i]) { assert PauseResume(trace[i + 1]); }
      RunStraysNobody(body, Step(body, s, trace[0]), trace[1..], w);
      StepStraysNobody(body, s, trace[0], w);
    }
  }

  /**
    In such a run both ways of completing leave the destination equal to the body, for every worker
    but one that was streaming into an unlinked file from the start; that one's own file is whole.
   */
  lemma PauseResumeCompletes(body: seq<Byte>, s: State, trace: seq<Event>, w: nat)
    requires Inv(body, s) && Underway(s) && forall i :: 0 <= i < |trace| ==> PauseResume(trace[i])
    requires w < |Run(body, s, trace).workers|
    ensures var t := Run(body, s, trace);
            && (Finishable(body, t.workers[w]) ==> Whole(body, t, t.workers[w].file))
            && (Finishable(body, t.workers[w]) && !Stray(s, w) ==> t.dest.Some? && Whole(body, t, t.dest.value))
            && (t.workers[w].Requested? && Answer(body, t.workers[w].offset, Unsatisfied).Completed? ==>
                  t.dest.Some? && Whole(body, t, t.dest.value))
  {
    PauseResumeIsSafe(body, s, trace);
    var t := Run(body, s, trace);
    if Finishable(body, t.workers[w]) {
      FinishMeansWhole(body, t, w);
      if Stray(t, w) { RunStraysNobody(body, s, trace, w); }
    }
    if t.workers[w].Requested? && Answer(body, t.workers[w].offset, Unsatisfied).Completed? {
      UnsatisfiedMeansWhole(body, t, w);
    }
  }

  // ---------------------------------------------------------------------------
  // What a worker can achieve

  /** The rest of the body arrives in one chunk, is flushed and lands. */
  function Arriving(w: nat, size: nat): seq<Event> {
    if size == 0 then [Finish(w)] else [Chunk(w, size)] + ([Submit(w, size)] + ([Land(w, size)] + [Finish(w)]))
  }

  lemma RunFirst(body: seq<Byte>, s: State, e: Event, rest: seq<Event>)
    ensures Run(body, s, [e] + rest) == Run(body, Step(body, s, e), rest)
  {
    hide Step;
    assert ([e] + rest)[1..] == rest;
  }

  /** What a worker writes after a prefix of the body completes it. */
  lemma RestCompletes(body: seq<Byte>, content: seq<Byte>, offset: nat)
    requires content <= body && offset <= |content| && offset < |body|
    ensures WriteAt(content, offset, body[offset..]) == body
  {
  }

  /** The file worker `w` has open holds at least what lies before its position. */
  lemma StreamCompletes(body: seq<Byte>, s: State, w: nat, file: nat, offset: nat)
    requires w < |s.workers| && s.workers[w] == Streaming(file, offset, [], [])
    requires file < |s.disk| && s.disk[file] <= body && offset <= |s.disk[file]|
    ensures var t := Run(body, s, Arriving(w, |body| - offset));
            && t.workers == s.workers[w := Completed] && t.dest == s.dest
            && t.disk == s.disk[file := body]
  {
    hide Step, WriteAt;
    var size := |body| - offset;
    if size == 0 {
      RunFirst(body, s, Finish(w), []);
      NothingLeft(body, s, w, file);
      assert [Finish(w)] + [] == [Finish(w)];
    } else {
      var chunked := Put(s, w, Streaming(file, offset, [], body[offset..]));
      var submitted := Put(s, w, Streaming(file, offset, body[offset..], []));
      var landed := Put(s.(disk := s.disk[file := body]), w, Streaming(file, |body|, [], []));
      ArrivingSteps(body, s, w, file, offset);
      RunFirst(body, s, Chunk(w, size), [Submit(w, size)] + ([Land(w, size)] + [Finish(w)]));
      RunFirst(body, chunked, Submit(w, size), [Land(w, size)] + [Finish(w)]);
      RunFirst(body, submitted, Land(w, size), [Finish(w)]);
      RunFirst(body, landed, Finish(w), []);
      assert [Finish(w)] + [] == [Finish(w)];
    }
  }

  lemma NothingLeft(body: seq<Byte>, s: State, w: nat, file: nat)
    requires w < |s.workers| && s.workers[w] == Streaming(file, |body|, [], [])
    requires file < |s.disk| && s.disk[file] <= body && |body| <= |s.disk[file]|
    ensures Step(body, s, Finish(w)) == Put(s, w, Completed) && s.disk[file := body] == s.disk
  {
    assert s.disk[file] == body;
  }

  lemma ArrivingSteps(body: seq<Byte>, s: State, w: nat, file: nat, offset: nat)
    requires w < |s.workers| && s.workers[w] == Streaming(file, offset, [], [])
    requires file < |s.disk| && s.disk[file] <= body && offset <= |s.disk[file]| && offset < |body|
    ensures var size := |body| - offset;
            var chunked := Put(s, w, Streaming(file, offset, [], body[offset..]));
            var submitted := Put(s, w, Streaming(file, offset, body[offset..], []));
            var landed := Put(s.(disk := s.disk[file := body]), w, Streaming(file, |body|, [], []));
            && Step(body, s, Chunk(w, size)) == chunked
            && Step(body, chunked, Submit(w, size)) == submitted
            && Step(body, submitted, Land(w, size)) == landed
            && Step(body, landed, Finish(w)) == Put(s.(disk := s.disk[file := body]), w, Completed)
  {
    hide WriteAt;
    var rest := body[offset..];
    var size := |body| - offset;
    assert body[offset..offset + size] == rest && [] + rest == rest;
    assert rest[..size] == rest && rest[size..] == [];
    RestCompletes(body, s.disk[file], offset);
    var submitted := Put(s, w, Streaming(file, offset, rest, []));
    assert LandPart(submitted, w, size).workers == s.workers[w := Streaming(file, |body|, [], [])];
  }

  /** The events in which worker `w` gets `response`, opens, and the rest of the body arrives. */
  function Transferring(w: nat, response: Response, size: nat): seq<Event> {
    [Respond(w, response)] + ([OpenDone(w)] + Arriving(w, size))
  }

  /** Everything but worker `w`, now completed, and the destination, now the body, is as it was. */
  predicate Completes(body: seq<Byte>, s: State, t: State, w: nat)
    requires w < |s.workers|
  {
    && t.workers == s.workers[w := Completed]
    && t.dest.Some? && t.dest.value < |t.disk| && t.disk[t.dest.value] == body
    && (s.dest.Some? ==>
          t.dest == s.dest && t.dest.value < |s.disk| && t.disk == s.disk[t.dest.value := body])
    && (s.dest.None? ==> t.disk == s.disk + [body])
  }

  lemma OpenedStreams(body: seq<Byte>, s: State, w: nat)
    requires w < |s.workers| && s.workers[w].Opening? && (s.dest.Some? ==> s.dest.value < |s.disk|)
    requires var offset := s.workers[w].offset;
             offset == 0 || (offset <= DestLength(s) && offset <= |body| && s.disk[s.dest.value] <= body)
    ensures var t, offset := Step(body, s, OpenDone(w)), s.workers[w].offset;
            && t.dest.Some? && t.dest.value < |t.disk|
            && t.workers == s.workers[w := Streaming(t.dest.value, offset, [], [])]
            && t.disk[t.dest.value] <= body && offset <= |t.disk[t.dest.value]|
            && if s.dest.Some? then t.dest == s.dest && t.disk == s.disk[t.dest.value := t.disk[t.dest.value]]
               else t.disk == s.disk + [[]] && t.dest.value == |s.disk|
  {
  }

  lemma FileCompletes(body: seq<Byte>, s: State, t: State, u: State, w: nat)
    requires w < |s.workers| && |t.workers| == |s.workers| && t.dest.Some? && t.dest.value < |t.disk|
    requires forall v :: 0 <= v < |s.workers| && v != w ==> t.workers[v] == s.workers[v]
    requires if s.dest.Some?
             then t.dest == s.dest && t.dest.value < |s.disk|
                  && t.disk == s.disk[t.dest.value := t.disk[t.dest.value]]
             else t.disk == s.disk + [[]] && t.dest.value == |s.disk|
    requires u.workers == t.workers[w := Completed] && u.dest == t.dest && u.disk == t.disk[t.dest.value := body]
    ensures Completes(body, s, u, w)
  {
    assert u.workers == s.workers[w := Completed];
  }

  lemma OpenedCompletes(body: seq<Byte>, s: State, w: nat)
    requires w < |s.workers| && s.workers[w].Opening? && (s.dest.Some? ==> s.dest.value < |s.disk|)
    requires var offset := s.workers[w].offset;
             offset == 0 || (offset <= DestLength(s) && offset <= |body| && s.disk[s.dest.value] <= body)
    ensures Completes(body, s, Run(body, s, [OpenDone(w)] + Arriving(w, |body| - s.workers[w].offset)), w)
  {
    hide Run, Arriving, WriteAt, Step, Completes;
    var offset := s.workers[w].offset;
    RunFirst(body, s, OpenDone(w), Arriving(w, |body| - offset));
    OpenedStreams(body, s, w);
    var t := Step(body, s, OpenDone(w));
    StreamCompletes(body, t, w, t.dest.value, offset);
    FileCompletes(body, s, t, Run(body, t, Arriving(w, |body| - offset)), w);
  }

  /**
    Resuming works: a worker that asked for the rest of a destination not yet whole, and is given
    exactly that part, completes over the whole body, whatever else is going on.
   */
  lemma ResumeCompletes(body: seq<Byte>, s: State, w: nat)
    requires Inv(body, s) && w < |s.workers| && s.workers[w].Requested?
    requires 0 < s.workers[w].offset <= DestLength(s) && s.workers[w].offset < |body|
    ensures var offset := s.workers[w].offset;
            Completes(body, s, Run(body, s, Transferring(w, Partial(offset), |body| - offset)), w)
  {
    hide Run, Arriving;
    var offset := s.workers[w].offset;
    RunFirst(body, s, Respond(w, Partial(offset)), [OpenDone(w)] + Arriving(w, |body| - offset));
    OpenedCompletes(body, Step(body, s, Respond(w, Partial(offset))), w);
  }

  /** And so does a transfer of everything, which truncates what was there. */
  lemma StartCompletes(body: seq<Byte>, s: State, w: nat)
    requires Inv(body, s) && w < |s.workers| && s.workers[w].Requested?
    ensures Completes(body, s, Run(body, s, Transferring(w, Full, |body|)), w)
  {
    hide Run, Arriving;
    RunFirst(body, s, Respond(w, Full), [OpenDone(w)] + Arriving(w, |body|));
    OpenedCompletes(body, Step(body, s, Respond(w, Full)), w);
  }

  /**
    Which responses let a worker open and where: a part only at the offset it asked for, everything
    at the start, and no other response.
   */
  lemma OpensExactly(body: seq<Byte>, s: State, w: nat, response: Response, at: nat)
    requires w < |s.workers| && s.workers[w].Requested?
    ensures var offset := s.workers[w].offset;
            Step(body, s, Respond(w, response)) == Put(s, w, Opening(at))
            <==> if at == 0 then response.Full? || (response.Partial? && offset == 0)
                 else response == Partial(at) && at == offset
  {
    var t := Step(body, s, Respond(w, response));
    assert t.workers[w] == Opening(at) <==> t == Put(s, w, Opening(at));
  }

  /** A resumption asks for what is not on disk yet, a fresh start for everything. */
  lemma BeginsAt(body: seq<Byte>, s: State, resume: bool)
    ensures Step(body, s, Begin(resume))
         == s.(workers := s.workers + [Requested(if resume && s.dest.Some? && s.dest.value < |s.disk|
                                                 then |s.disk[s.dest.value]| else 0)])
  {
  }

  /** A stopped stream keeps only the write that is in flight; one that has completed stays so. */
  lemma StoppedKeepsItsWrite(body: seq<Byte>, s: State, w: nat)
    requires w < |s.workers|
    ensures var k, t := s.workers[w], Step(body, s, Stop(w));
            && t.disk == s.disk && t.dest == s.dest
            && (k.Streaming? ==> t.workers[w] == Draining(k.file, k.written, k.inflight))
            && (k.Completed? || k.Draining? ==> t == s)
            && (k.Requested? || k.Opening? ==> t.workers[w] == Failed)
  {
    if s.workers[w].Completed? || s.workers[w].Draining? { PutBack(s, w); }
  }

  /** A stream completes only with the whole body in its file, and with nothing left to write. */
  lemma CompletesOnlyWhole(body: seq<Byte>, s: State, w: nat)
    requires Inv(body, s) && w < |s.workers| && s.workers[w].Streaming?
    requires Step(body, s, Finish(w)).workers[w].Completed?
    ensures s.workers[w].file < |s.disk| && s.disk[s.workers[w].file] == body
    ensures s.workers[w].inflight == [] && s.workers[w].buffered == []
  {
    FinishMeansWhole(body, s, w);
  }

  /** And which one ends it at once: 416 with the offset at the end of the body. */
  lemma EndsAtOnceExactly(body: seq<Byte>, s: State, w: nat, response: Response)
    requires w < |s.workers| && s.workers[w].Requested?
    ensures Step(body, s, Respond(w, response)).workers[w].Completed?
            <==> response.Unsatisfied? && s.workers[w].offset == |body|
  {
  }

  // ---------------------------------------------------------------------------
  // Why the hypotheses are needed

  const INITIAL: State := State([], None, [])

  lemma {:induction false} RunAppend(body: seq<Byte>, s: State, first: seq<Event>, second: seq<Event>)
    ensures Run(body, s, first + second) == Run(body, Run(body, s, first), second)
    decreases |first|
  {
    if first == [] {
      assert first + second == second;
    } else {
      assert (first + second)[1..] == first[1..] + second;
      RunAppend(body, Step(body, s, first[0]), first[1..], second);
    }
  }

  lemma RunOne(body: seq<Byte>, s: State, e: Event)
    ensures Run(body, s, [e]) == Step(body, s, e)
  {
    assert [e][1..] == [];
  }

  lemma RunTwo(body: seq<Byte>, s: State, d: Event, e: Event)
    ensures Run(body, s, [d, e]) == Step(body, Step(body, s, d), e)
  {
    assert [d, e][1..] == [e];
    RunOne(body, Step(body, s, d), e);
  }

  /** A first worker opens the destination. */
  const OPENING: seq<Event> := [Begin(false), Respond(0, Full)] + [OpenDone(0)]
  const OPENED: State := State([[]], Some(0), [Streaming(0, 0, [], [])])

  lemma FileOpened(body: seq<Byte>)
    ensures Run(body, INITIAL, OPENING) == OPENED
  {
    RunTwo(body, INITIAL, Begin(false), Respond(0, Full));
    RunAppend(body, INITIAL, [Begin(false), Respond(0, Full)], [OpenDone(0)]);
    RunOne(body, State([], None, [Opening(0)]), OpenDone(0));
  }

  /** Both its bytes are on their way in one write. */
  const SUBMITTING: seq<Event> := [Chunk(0, 2), Submit(0, 2)]
  const SUBMITTED: State := State([[]], Some(0), [Streaming(0, 0, [7, 8], [])])

  lemma WriteSubmitted(body: seq<Byte>)
    requires body == [7, 8]
    ensures Run(body, OPENED, SUBMITTING) == SUBMITTED
  {
    RunTwo(body, OPENED, Chunk(0, 2), Submit(0, 2));
    assert [] + body[0..2] == [7, 8];
    assert Step(body, OPENED, Chunk(0, 2)) == State([[]], Some(0), [Streaming(0, 0, [], [7, 8])]);
    assert [7, 8][..2] == [7, 8] && [7, 8][2..] == [];
  }

  /** It is stopped with the second byte still in flight. */
  const STOPPING: seq<Event> := [Land(0, 1), Stop(0)]
  const STOPPED: State := State([[7]], Some(0), [Draining(0, 1, [8])])

  lemma LateWriteInFlight(body: seq<Byte>)
    ensures Run(body, SUBMITTED, STOPPING) == STOPPED
  {
    RunTwo(body, SUBMITTED, Land(0, 1), Stop(0));
    assert [7, 8][..1] == [7] && [7, 8][1..] == [8] && WriteAt([], 0, [7]) == [7];
    assert Step(body, SUBMITTED, Land(0, 1)) == State([[7]], Some(0), [Streaming(0, 1, [8], [])]);
  }

  /** A fresh start is about to open the same file. */
  const RESTARTING: seq<Event> := [Begin(false), Respond(1, Full)]
  const RESTARTED: State := State([[7]], Some(0), [Draining(0, 1, [8]), Opening(0)])

  lemma FreshStart(body: seq<Byte>)
    ensures Run(body, STOPPED, RESTARTING) == RESTARTED
  {
    RunTwo(body, STOPPED, Begin(false), Respond(1, Full));
  }

  lemma HoleIsLeft(body: seq<Byte>)
    requires body == [7, 8]
    ensures Inv(body, RESTARTED) && !Safe(RESTARTED, OpenDone(1))
    ensures Run(body, RESTARTED, [OpenDone(1), Land(0, 1)]).disk == [[0, 8]]
  {
    var truncated := State([[]], Some(0), [Draining(0, 1, [8]), Streaming(0, 0, [], [])]);
    RunTwo(body, RESTARTED, OpenDone(1), Land(0, 1));
    assert Step(body, RESTARTED, OpenDone(1)) == truncated;
    assert [8][..1] == [8] && WriteAt([], 1, [8]) == [0, 8];
    assert Step(body, truncated, Land(0, 1)).disk[0] == [0, 8];
  }

  /**
    Safe opens are needed: from the start there is a run in which a fresh start truncates the
    file under a late write, which leaves a hole when it lands.
   */
  lemma TruncatingRestartCorrupts(body: seq<Byte>)
    requires body == [7, 8]
    ensures var restarted := Run(body, INITIAL, OPENING + SUBMITTING + STOPPING + RESTARTING);
            && Inv(body, restarted) && !Safe(restarted, OpenDone(1))
            && Run(body, restarted, [OpenDone(1), Land(0, 1)]).disk == [[0, 8]]
  {
    FileOpened(body);
    WriteSubmitted(body);
    LateWriteInFlight(body);
    FreshStart(body);
    RunAppend(body, INITIAL, OPENING, SUBMITTING);
    RunAppend(body, INITIAL, OPENING + SUBMITTING, STOPPING);
    RunAppend(body, INITIAL, OPENING + SUBMITTING + STOPPING, RESTARTING);
    HoleIsLeft(body);
  }

  /** Both bytes land, and the path is unlinked before the worker has noticed. */
  const UNLINKING: seq<Event> := [Land(0, 2), Unlink]
  const UNLINKED: State := State([[7, 8]], None, [Streaming(0, 2, [], [])])

  lemma PathUnlinked(body: seq<Byte>)
    ensures Run(body, SUBMITTED, UNLINKING) == UNLINKED
  {
    RunTwo(body, SUBMITTED, Land(0, 2), Unlink);
    assert [7, 8][..2] == [7, 8] && [7, 8][2..] == [] && WriteAt([], 0, [7, 8]) == [7, 8];
    assert Step(body, SUBMITTED, Land(0, 2)) == State([[7, 8]], Some(0), [Streaming(0, 2, [], [])]);
  }

  /** A fresh start creates a new file. */
  const REOPENING: seq<Event> := [Begin(false), Respond(1, Full)] + [OpenDone(1)]
  const REOPENED: State := State([[7, 8], []], Some(1), [Streaming(0, 2, [], []), Streaming(1, 0, [], [])])

  lemma NewFileOpened(body: seq<Byte>)
    ensures Run(body, UNLINKED, REOPENING) == REOPENED
  {
    RunTwo(body, UNLINKED, Begin(false), Respond(1, Full));
    RunAppend(body, UNLINKED, [Begin(false), Respond(1, Full)], [OpenDone(1)]);
    RunOne(body, State([[7, 8]], None, [Streaming(0, 2, [], []), Opening(0)]), OpenDone(1));
  }

  /** Its first byte lands. */
  const FILLING: seq<Event> := [Chunk(1, 1), Submit(1, 1)] + [Land(1, 1)]
  const FILLED: State := State([[7, 8], [7]], Some(1), [Streaming(0, 2, [], []), Streaming(1, 1, [], [])])

  lemma FirstByteLands(body: seq<Byte>)
    requires body == [7, 8]
    ensures Run(body, REOPENED, FILLING) == FILLED
  {
    var chunked := State([[7, 8], []], Some(1), [Streaming(0, 2, [], []), Streaming(1, 0, [], [7])]);
    var submitted := State([[7, 8], []], Some(1), [Streaming(0, 2, [], []), Streaming(1, 0, [7], [])]);
    RunAppend(body, REOPENED, [Chunk(1, 1), Submit(1, 1)], [Land(1, 1)]);
    RunTwo(body, REOPENED, Chunk(1, 1), Submit(1, 1));
    assert [] + body[0..1] == [7] && [7][..1] == [7] && [7][1..] == [] && WriteAt([], 0, [7]) == [7];
    assert Step(body, REOPENED, Chunk(1, 1)) == chunked && Step(body, chunked, Submit(1, 1)) == submitted;
    RunOne(body, submitted, Land(1, 1));
  }

  /**
    A stray worker does finish beside a destination that is not whole: its file was unlinked under
    it, and a fresh start has only begun to fill the new one.
   */
  lemma StrayFinishesElsewhere(body: seq<Byte>)
    requires body == [7, 8]
    ensures var s := Run(body, INITIAL, OPENING + SUBMITTING + UNLINKING + REOPENING + FILLING);
            && Inv(body, s) && Underway(s) && Stray(s, 0)
            && Finishable(body, s.workers[0]) && s.dest.Some? && !Whole(body, s, s.dest.value)
  {
    FileOpened(body);
    WriteSubmitted(body);
    PathUnlinked(body);
    NewFileOpened(body);
    FirstByteLands(body);
    RunAppend(body, INITIAL, OPENING, SUBMITTING);
    RunAppend(body, INITIAL, OPENING + SUBMITTING, UNLINKING);
    RunAppend(body, INITIAL, OPENING + SUBMITTING + UNLINKING, REOPENING);
    RunAppend(body, INITIAL, OPENING + SUBMITTING + UNLINKING + REOPENING, FILLING);
    StrayIsLeft(body);
  }

  lemma StrayIsLeft(body: seq<Byte>)
    requires body == [7, 8]
    ensures Inv(body, FILLED) && Underway(FILLED) && Stray(FILLED, 0)
    ensures Finishable(body, FILLED.workers[0]) && !Whole(body, FILLED, 1)
  {
    assert [7, 8][..1] == [7];
  }

  // ---------------------------------------------------------------------------
  // The transfer loop of one worker, over its own buffered writer

  const DOWNLOAD_BUFFER_CAPACITY: nat := 1024 * 1024

  function Concat(chunks: seq<seq<Byte>>): seq<Byte> {
    if chunks == [] then [] else Concat(chunks[..|chunks| - 1]) + chunks[|chunks| - 1]
  }

  /** Two adjacent positioned writes are one. */
  lemma WriteTwice(content: seq<Byte>, position: nat, first: seq<Byte>, second: seq<Byte>)
    ensures WriteAt(WriteAt(content, position, first), position + |first|, second)
         == WriteAt(content, position, first + second)
  {
    if first == [] {
      assert first + second == second;
    } else if second == [] {
      assert first + second == first;
    } else {
      assert WriteAt(WriteAt(content, position, first), position + |first|, second)
          == WriteAt(content, position, first + second);
    }
  }

  /** The open destination and the buffered writer over it. */
  class DestinationWriter {
    var content: seq<Byte>
    var cursor: nat
    var buffer: seq<Byte>

    /** What the file will hold once the buffer is flushed. */
    function Flushed(): seq<Byte> reads this {
      WriteAt(content, cursor, buffer)
    }

    /** Open with truncation exactly at offset zero, and seek to the offset otherwise. */
    constructor (existing: seq<Byte>, offset: nat)
      ensures content == (if offset == 0 then [] else existing) && cursor == offset && buffer == []
    {
      content := if offset == 0 then [] else existing;
      cursor := offset;
      buffer := [];
    }

    method Flush()
      modifies this
      ensures content == old(Flushed()) && buffer == [] && cursor == old(cursor + |buffer|)
    {
      content := WriteAt(content, cursor, buffer);
      cursor := cursor + |buffer|;
      buffer := [];
    }

    /**
      write_all: flush when the chunk would overflow the buffer, bypass it when the chunk is too
      large. `n` of the pending bytes reach the file; the rest stay buffered.
     */
    method WriteAll(chunk: seq<Byte>) returns (ghost n: nat)
      modifies this
      ensures n <= |old(buffer) + chunk|
      ensures content == WriteAt(old(content), old(cursor), (old(buffer) + chunk)[..n])
      ensures cursor == old(cursor) + n && buffer == (old(buffer) + chunk)[n..]
    {
      ghost var all := buffer + chunk;
      n := 0;
      assert all[..0] == [] && all[0..] == all;
      if |buffer| + |chunk| > DOWNLOAD_BUFFER_CAPACITY {
        n := |buffer|;
        assert all[..n] == buffer && all[n..] == chunk;
        Flush();
      }
      if |chunk| >= DOWNLOAD_BUFFER_CAPACITY {
        WriteTwice(old(content), old(cursor), all[..n], chunk);
        assert all[..n] + chunk == all && all[..|all|] == all && all[|all|..] == [];
        content := WriteAt(content, cursor, chunk);
        cursor := cursor + |chunk|;
        n := |all|;
      } else {
        buffer := buffer + chunk;
      }
    }

    /** `landed` of the bytes of `all` are on disk after the offset; the rest are buffered. */
    ghost predicate Holding(start: seq<Byte>, offset: nat, all: seq<Byte>, landed: nat)
      reads this
    {
      && landed <= |all|
      && content == WriteAt(start, offset, all[..landed])
      && cursor == offset + landed && buffer == all[landed..]
    }

    /** One turn of the streaming loop: buffer the chunk, and flush when progress is due. */
    method Take(chunk: seq<Byte>, due: bool, ghost start: seq<Byte>, ghost offset: nat,
                ghost all: seq<Byte>, ghost landed: nat) returns (ghost now: nat)
      requires Holding(start, offset, all, landed)
      modifies this
      ensures Holding(start, offset, all + chunk, now)
      ensures due ==> now == |all + chunk|
    {
      ghost var n := WriteAll(chunk);
      LandsMore(start, offset, all, landed, chunk, n);
      now := landed + n;
      if due { now := Drain(start, offset, all + chunk, now); }
    }

    /** The flush at the end, and whenever progress is due. */
    method Drain(ghost start: seq<Byte>, ghost offset: nat, ghost all: seq<Byte>, ghost landed: nat)
      returns (ghost now: nat)
      requires Holding(start, offset, all, landed)
      modifies this
      ensures Holding(start, offset, all, now) && now == |all|
    {
      LandsMore(start, offset, all, landed, [], |buffer|);
      assert buffer + [] == buffer && all + [] == all;
      now := |all|;
      Flush();
    }
  }

  /**
    transfer_download after the response is accepted. `chunks` is what the stream yields before
    it ends, `intact` whether it ends without an error, and `emits` when progress is due, which
    flushes. Whatever the chunk sizes and flush points, the file is what one positioned write of
    the first `landed` bytes gives; all of them on success.
   */
  method TransferDownload(existing: seq<Byte>, offset: nat, chunks: seq<seq<Byte>>, intact: bool, emits: seq<bool>)
    returns (ok: bool, bytesDone: nat, content: seq<Byte>, ghost landed: nat)
    requires |emits| == |chunks|
    ensures landed <= |Concat(chunks)|
    ensures content == WriteAt(if offset == 0 then [] else existing, offset, Concat(chunks)[..landed])
    ensures ok == intact
    ensures ok ==> landed == |Concat(chunks)|
    ensures bytesDone == offset + |Concat(chunks)|
  {
    var file := new DestinationWriter(existing, offset);
    ghost var start := file.content;
    bytesDone := offset;
    landed := 0;
    var i := 0;
    while i < |chunks|
      invariant 0 <= i <= |chunks|
      invariant file.Holding(start, offset, Concat(chunks[..i]), landed)
      invariant bytesDone == offset + |Concat(chunks[..i])|
    {
      assert chunks[..i + 1][..i] == chunks[..i];
      landed := file.Take(chunks[i], emits[i], start, offset, Concat(chunks[..i]), landed);
      bytesDone := bytesDone + |chunks[i]|;
      i := i + 1;
    }
    assert chunks[..i] == chunks;
    if intact { landed := file.Drain(start, offset, Concat(chunks), landed); }
    ok, content := intact, file.content;
  }

  /** Landing `n` of the bytes still pending extends the single positioned write by `n` bytes. */
  lemma LandsMore(start: seq<Byte>, offset: nat, sofar: seq<Byte>, landed: nat, chunk: seq<Byte>, n: nat)
    requires landed <= |sofar| && n <= |sofar[landed..] + chunk|
    ensures var all := sofar + chunk;
            && WriteAt(WriteAt(start, offset, sofar[..landed]), offset + landed, (sofar[landed..] + chunk)[..n])
               == WriteAt(start, offset, all[..landed + n])
            && (sofar[landed..] + chunk)[n..] == all[landed + n..]
            && (chunk == [] ==> all == sofar && sofar[landed..] + chunk == sofar[landed..])
  {
    var all := sofar + chunk;
    assert sofar[..landed] + (sofar[landed..] + chunk)[..n] == all[..landed + n];
    WriteTwice(start, offset, sofar[..landed], (sofar[landed..] + chunk)[..n]);
  }

  /**
    A transfer that resumes a prefix and receives the rest of the body leaves the whole body;
    one that is cut short leaves a prefix.
   */
  lemma TransferExtendsPrefix(body: seq<Byte>, existing: seq<Byte>, offset: nat, landed: nat)
    requires existing <= body && offset <= |existing| && landed <= |body| - offset
    ensures var after := WriteAt(if offset == 0 then [] else existing, offset, body[offset..][..landed]);
            after <= body && (landed == |body| - offset ==> after == body)
  {
    assert body[offset..][..landed] == body[offset..offset + landed];
    WriteKeepsPrefix(body, if offset == 0 then [] else existing, offset, body[offset..][..landed]);
  }
}
