/**
 The write path from `write` to the driver: one host thread, any number of workers and
 the read path, all sharing the staging pool.

 A write stages a copy of the host's bytes, submits a task that names the staging
 buffer, and only then counts itself as pending; the worker's callback calls the
 driver, records a failure, releases the buffer and decrements the pending counter.
 Runs are arbitrary sequences of the atomic actions below.
 */
module WritePath {
  import opened Common
  import Staging
  import Workers

  type Bytes = seq<bv8>

  const QUEUE_CAPACITY: nat := 1024

  /** How far one write has come. */
  datatype Stage =
    | Staged      // buffer acquired; host still inside `write`
    | Submitted   // task in the worker queue
    | Refused     // the worker pool did not take the task
    | Running     // callback begun, driver not yet called
    | Called      // driver returned or threw, and the outcome is recorded
    | Freed       // staging buffer released
    | Settled     // pending_writes decremented
    | Stubbed     // no worker pool: reported complete without a driver call

  /** `snap` is the host's bytes when `write` was called; `delivered` lists what the
      driver was handed; `threw` and `completed` are the outcome that `amio_wait` looks at;
      `counted` says whether the write was added to pending_writes
      and `debits` how often it was subtracted. */
  datatype Write = Write(dataset: nat, snap: Bytes, buf: nat, stage: Stage,
                         delivered: seq<Bytes>, threw: bool, completed: bool, counted: bool, debits: nat)

  datatype Host =
    | Away                          // running its own code
    | Writing(id: nat, copied: bool)  // inside `write`, before the submission
    | Counting(id: nat)             // inside `write`, after the submission
    | Polling(dataset: nat)         // inside `flush`, reading pending_writes
    | Checking(dataset: nat)        // inside `flush`, saw zero, about to read has_failure
    | Flushed(dataset: nat, status: Status)

  /** `memory` maps heap blocks to their bytes; `others` are the buffers that the read
      path holds; `step` says how far each worker is in its callback. */
  datatype System = System(
    pool: Staging.Pool,
    memory: map<nat, Bytes>,
    others: set<nat>,
    workers: Workers.State,
    step: map<nat, Stage>,
    owner: map<Workers.Task, nat>,
    writes: seq<Write>,
    host: Host,
    hostBytes: Bytes,
    pending: map<nat, nat>,
    failed: set<nat>,
    hasWorkers: bool)

  datatype Action =
    | HostScribbles(bytes: Bytes)
    | WriteAcquires(dataset: nat)
    | WriteCopies
    | WriteSubmits(variable: nat)
    | WriteIsRefused
    | WriteCounts
    | WriteStubs
    | WorkerMoves(action: Workers.Action)
    | CallsDriver(worker: nat, ok: bool)
    | FreesBuffer(worker: nat)
    | Decrements(worker: nat)
    | Returns(worker: nat)
    | OtherAcquires(required: nat)
    | OtherFills(slot: nat, bytes: Bytes)
    | OtherReleases(slot: nat)
    | FlushBegins(dataset: nat)
    | FlushSeesZero
    | FlushExpires
    | FlushReports
    | HostGoesOn

  /******* Reading the state *******/

  predicate Holds(w: Write) {
    w.stage == Staged || w.stage == Submitted || w.stage == Refused || w.stage == Running || w.stage == Called
  }

  /** The task that worker `v` is executing belongs to write `Job(s, v)`. */
  predicate Busy(s: System, v: nat) {
    && v < |s.workers.threads| && s.workers.threads[v].Executing?
    && s.workers.threads[v].task in s.owner
    && s.owner[s.workers.threads[v].task] < |s.writes|
    && v in s.step
  }

  function Job(s: System, v: nat): nat
    requires Busy(s, v)
  {
    s.owner[s.workers.threads[v].task]
  }

  predicate BusyAt(s: System, v: nat, stage: Stage) {
    Busy(s, v) && s.step[v] == stage
  }

  function BytesAt(s: System, i: nat): Bytes {
    var b := Staging.Block(s.pool, i);
    if b.Some? && b.value in s.memory then s.memory[b.value] else []
  }

  function PendingOf(s: System, d: nat): nat {
    if d in s.pending then s.pending[d] else 0
  }

  /** A worker's locked pass is about to start the task at the front of the queue. */
  predicate Starts(s: System, a: Workers.Action) {
    && a.TryExecute? && Workers.Enabled(s.workers, a)
    && s.workers.queue != [] && s.workers.queue[0].num == a.seen
    && s.workers.queue[0] in s.owner && s.owner[s.workers.queue[0]] < |s.writes|
  }

  /** The host has staged its bytes and is about to submit the task. */
  predicate AtSubmission(s: System) {
    s.hasWorkers && s.host.Writing? && s.host.copied && s.host.id < |s.writes|
  }

  /** The worker pool takes no task: it is shut down or its queue is full. */
  predicate Refuses(s: System) {
    s.workers.shutdown || |s.workers.queue| >= QUEUE_CAPACITY
  }

  predicate Enabled(s: System, a: Action) {
    match a
    case HostScribbles(_) => s.host.Away?
    case WriteAcquires(_) => s.host.Away? && Staging.InRange(s.pool)
    case WriteCopies => s.host.Writing? && !s.host.copied && s.host.id < |s.writes|
                        && Staging.Block(s.pool, s.writes[s.host.id].buf).Some?
    case WriteSubmits(_) => AtSubmission(s) && !Refuses(s)
    case WriteIsRefused => AtSubmission(s) && Refuses(s)
    case WriteCounts => s.host.Counting? && s.host.id < |s.writes|
    case WriteStubs => !s.hasWorkers && s.host.Writing? && s.host.copied && s.host.id < |s.writes|
                       && Staging.InRange(s.pool) && Staging.Referenced(s.pool, s.writes[s.host.id].buf)
    case WorkerMoves(b) => !b.Submit? && !b.Finish? && Workers.Enabled(s.workers, b)
    case CallsDriver(v, _) => BusyAt(s, v, Running)
    case FreesBuffer(v) => BusyAt(s, v, Called) && Staging.InRange(s.pool)
                           && Staging.Referenced(s.pool, s.writes[Job(s, v)].buf)
    case Decrements(v) => BusyAt(s, v, Freed)
    case Returns(v) => BusyAt(s, v, Settled)
    case OtherAcquires(_) => Staging.InRange(s.pool)
    case OtherFills(i, _) => i in s.others && Staging.Block(s.pool, i).Some?
    case OtherReleases(i) => i in s.others && Staging.InRange(s.pool) && Staging.Referenced(s.pool, i)
    case FlushBegins(_) => s.host.Away?
    case FlushSeesZero => s.host.Polling? && PendingOf(s, s.host.dataset) == 0
    case FlushExpires => s.host.Polling?
    case FlushReports => s.host.Checking?
    case HostGoesOn => s.host.Flushed?
  }

  /******* Actions *******/

  function NewWrite(s: System, d: nat, buf: nat): Write {
    Write(d, s.hostBytes, buf, Staged, [], false, false, false, 0)
  }

  function DoAcquire(s: System, d: nat): System
    requires Staging.InRange(s.pool)
  {
    var (q, r) := Staging.TryAcquire(s.pool, |s.hostBytes|);
    if r.None? then s  // AMIO_ERR_STAGING_BACKPRESSURE, or another wait
    else s.(pool := q, writes := s.writes + [NewWrite(s, d, r.value)], host := Writing(|s.writes|, false))
  }

  function SetStage(ws: seq<Write>, id: nat, stage: Stage): seq<Write>
    requires id < |ws|
  {
    ws[id := ws[id].(stage := stage)]
  }

  function DoSubmit(s: System, variable: nat): System
    requires s.host.Writing? && s.host.id < |s.writes|
  {
    var id := s.host.id;
    var k := Workers.Key(s.writes[id].dataset, variable);
    var t := Workers.Task(k, Workers.Next(s.workers, k));
    s.(workers := Workers.DoSubmit(s.workers, k), owner := s.owner[t := id],
       writes := SetStage(s.writes, id, Submitted), host := Counting(id))
  }

  function Credit(s: System, d: nat): map<nat, nat> {
    s.pending[d := (PendingOf(s, d) + 1) % TWO_64]
  }

  function Debit(s: System, d: nat): map<nat, nat> {
    s.pending[d := (PendingOf(s, d) + TWO_64 - 1) % TWO_64]
  }

  function DoWorkerMove(s: System, a: Workers.Action): System {
    var m := s.(workers := Workers.Step(s.workers, a));
    if Starts(s, a) then
      m.(step := s.step[a.worker := Running], writes := SetStage(s.writes, s.owner[s.workers.queue[0]], Running))
    else m
  }

  /** The driver is handed the bytes that the staging buffer holds now. */
  function DoCall(s: System, v: nat, ok: bool): System
    requires BusyAt(s, v, Running)
  {
    var id := Job(s, v);
    var w := s.writes[id];
    s.(writes := s.writes[id := w.(stage := Called, delivered := w.delivered + [BytesAt(s, w.buf)],
                                      threw := !ok, completed := ok)],
       step := s.step[v := Called],
       failed := if ok then s.failed else s.failed + {w.dataset})
  }

  function DoFree(s: System, v: nat): System
    requires Enabled(s, FreesBuffer(v))
  {
    var id := Job(s, v);
    s.(pool := Staging.Release(s.pool, s.writes[id].buf), writes := SetStage(s.writes, id, Freed),
       step := s.step[v := Freed])
  }

  function DoDecrement(s: System, v: nat): System
    requires BusyAt(s, v, Freed)
  {
    var id := Job(s, v);
    var w := s.writes[id];
    s.(pending := Debit(s, w.dataset), writes := s.writes[id := w.(stage := Settled, debits := w.debits + 1)],
       step := s.step[v := Settled])
  }

  /** Without a worker pool the write is marked complete and its buffer returned. */
  function DoStub(s: System): System
    requires Enabled(s, WriteStubs)
  {
    var w := s.writes[s.host.id];
    s.(pool := Staging.Release(s.pool, w.buf), writes := s.writes[s.host.id := w.(stage := Stubbed, completed := true)], host := Away)
  }

  function Apply(s: System, a: Action): System
    requires Enabled(s, a)
  {
    match a
    case HostScribbles(bytes) => s.(hostBytes := bytes)
    case WriteAcquires(d) => DoAcquire(s, d)
    case WriteCopies =>
      s.(memory := s.memory[Staging.Block(s.pool, s.writes[s.host.id].buf).value := s.hostBytes],
         host := s.host.(copied := true))
    case WriteSubmits(variable) => DoSubmit(s, variable)
    case WriteIsRefused => s.(writes := SetStage(s.writes, s.host.id, Refused), host := Counting(s.host.id))
    case WriteCounts =>
      s.(pending := Credit(s, s.writes[s.host.id].dataset),
         writes := s.writes[s.host.id := s.writes[s.host.id].(counted := true)], host := Away)
    case WriteStubs => DoStub(s)
    case WorkerMoves(b) => DoWorkerMove(s, b)
    case CallsDriver(v, ok) => DoCall(s, v, ok)
    case FreesBuffer(v) => DoFree(s, v)
    case Decrements(v) => DoDecrement(s, v)
    case Returns(v) => s.(workers := Workers.DoFinish(s.workers, v))
    case OtherAcquires(n) =>
      var (q, r) := Staging.TryAcquire(s.pool, n);
      if r.None? then s else s.(pool := q, others := s.others + {r.value})
    case OtherFills(i, bytes) => s.(memory := s.memory[Staging.Block(s.pool, i).value := bytes])
    case OtherReleases(i) => s.(pool := Staging.Release(s.pool, i), others := s.others - {i})
    case FlushBegins(d) => s.(host := Polling(d))
    case FlushSeesZero => s.(host := Checking(s.host.dataset))
    case FlushExpires => s.(host := Flushed(s.host.dataset, Timeout))
    case FlushReports =>
      s.(host := Flushed(s.host.dataset, if s.host.dataset in s.failed then BackendFailure else Ok))
    case HostGoesOn => s.(host := Away)
  }

  function Step(s: System, a: Action): System {
    if Enabled(s, a) then Apply(s, a) else s
  }

  function Run(s: System, actions: seq<Action>): System
    decreases |actions|
  {
    if actions == [] then s else Run(Step(s, actions[0]), actions[1..])
  }

  function Init(pool: Staging.Pool, threads: nat, hasWorkers: bool, hostBytes: Bytes): System {
    System(pool, map[], {}, Workers.Init(threads), map[], map[], [], Away, hostBytes, map[], {}, hasWorkers)
  }

  /******* Invariant: buffer ownership *******/

  /** Every buffer that a write or the read path holds carries exactly that reference. */
  ghost predicate Ownership(s: System) {
    && (forall i :: i in s.others ==> Staging.Held(s.pool, i))
    && (forall id :: 0 <= id < |s.writes| && Holds(s.writes[id]) ==>
          Staging.Held(s.pool, s.writes[id].buf) && s.writes[id].buf !in s.others)
    && (forall a, b :: 0 <= a < b < |s.writes| && Holds(s.writes[a]) && Holds(s.writes[b]) ==>
          s.writes[a].buf != s.writes[b].buf)
  }

  lemma GainKeepsOwnership(s: System, s': System, i: nat)
    requires Ownership(s) && !Staging.Held(s.pool, i) && Staging.Held(s'.pool, i) && Staging.OthersKept(s.pool, s'.pool, i)
    requires
      || (s'.others == s.others && |s'.writes| == |s.writes| + 1 && s'.writes[|s.writes|].buf == i
          && forall id :: 0 <= id < |s.writes| ==> s'.writes[id] == s.writes[id])
      || (s'.others == s.others + {i} && s'.writes == s.writes)
    ensures Ownership(s')
  {
  }

  lemma LossKeepsOwnership(s: System, s': System, i: nat)
    requires Ownership(s) && Staging.Held(s.pool, i) && Staging.OthersKept(s.pool, s'.pool, i)
    requires s'.others == s.others - {i} && |s'.writes| == |s.writes|
    requires forall id :: 0 <= id < |s.writes| ==>
      && s'.writes[id].buf == s.writes[id].buf
      && (Holds(s'.writes[id]) ==> Holds(s.writes[id]) && s.writes[id].buf != i)
    ensures Ownership(s')
  {
  }

  lemma StableKeepsOwnership(s: System, s': System)
    requires Ownership(s) && Stable(s, s')
    ensures Ownership(s')
  {
  }

  /******* Invariant: tasks, callbacks and the host's place *******/

  ghost predicate Linked(s: System) {
    OwnerSound(s) && QueueLinked(s) && ThreadsLinked(s) && HostLinked(s)
  }

  /** Each submitted task belongs to one write. */
  ghost predicate OwnerSound(s: System) {
    && Workers.TasksSound(s.workers)
    && (forall t :: t in s.owner ==>
          s.owner[t] < |s.writes| && t.num < Workers.Next(s.workers, t.key)
          && s.writes[s.owner[t]].stage != Staged && s.writes[s.owner[t]].dataset == t.key.dataset)
    && (forall t, u :: t in s.owner && u in s.owner && t != u ==> s.owner[t] != s.owner[u])
  }

  ghost predicate QueueLinked(s: System) {
    forall i :: 0 <= i < |s.workers.queue| ==>
      var t := s.workers.queue[i];
      t in s.owner && s.owner[t] < |s.writes| && s.writes[s.owner[t]].stage == Submitted
  }

  ghost predicate ThreadsLinked(s: System) {
    forall v :: 0 <= v < |s.workers.threads| && s.workers.threads[v].Executing? ==>
      Busy(s, v) && s.writes[Job(s, v)].stage == s.step[v]
      && s.step[v] in {Running, Called, Freed, Settled}
  }

  ghost predicate HostLinked(s: System) {
    && (s.host.Writing? ==> s.host.id < |s.writes| && s.writes[s.host.id].stage == Staged)
    && (s.host.Counting? ==> s.hasWorkers && s.host.id < |s.writes| && s.writes[s.host.id].stage != Staged)
    && (forall id :: 0 <= id < |s.writes| && s.writes[id].stage == Staged ==> s.host.Writing? && s.host.id == id)
  }

  /******* Ownership is kept by every action *******/

  lemma AcquiresKeepOwnership(s: System, a: Action)
    requires Staging.Valid(s.pool) && Ownership(s) && (a.WriteAcquires? || a.OtherAcquires?) && Enabled(s, a)
    ensures Staging.Valid(Apply(s, a).pool) && Ownership(Apply(s, a))
  {
    var n := if a.WriteAcquires? then |s.hostBytes| else a.required;
    Staging.AcquireFrame(s.pool, n);
    var r := Staging.TryAcquire(s.pool, n).1;
    if r.Some? {
      GainKeepsOwnership(s, Apply(s, a), r.value);
    }
  }

  lemma WriteReleaseKeepsOwnership(s: System, s': System, id: nat)
    requires Staging.Valid(s.pool) && Ownership(s) && id < |s.writes| && Holds(s.writes[id])
    requires s'.pool == Staging.Release(s.pool, s.writes[id].buf) && s'.others == s.others
    requires |s'.writes| == |s.writes| && s'.writes == s.writes[id := s'.writes[id]]
    requires !Holds(s'.writes[id]) && s'.writes[id].buf == s.writes[id].buf
    ensures Staging.Valid(s'.pool) && Ownership(s')
  {
    var i := s.writes[id].buf;
    Staging.ReleaseFrame(s.pool, i);
    forall j | 0 <= j < |s.writes| && Holds(s'.writes[j]) ensures Holds(s.writes[j]) && s.writes[j].buf != i {
      assert j != id;
    }
    LossKeepsOwnership(s, s', i);
  }

  lemma StubKeepsOwnership(s: System)
    requires Staging.Valid(s.pool) && Ownership(s) && HostLinked(s) && Enabled(s, WriteStubs)
    ensures Staging.Valid(Apply(s, WriteStubs).pool) && Ownership(Apply(s, WriteStubs))
  {
    WriteReleaseKeepsOwnership(s, Apply(s, WriteStubs), s.host.id);
  }

  lemma FreeKeepsOwnership(s: System, v: nat)
    requires Staging.Valid(s.pool) && Ownership(s) && ThreadsLinked(s) && Enabled(s, FreesBuffer(v))
    ensures Staging.Valid(DoFree(s, v).pool) && Ownership(DoFree(s, v))
  {
    WriteReleaseKeepsOwnership(s, DoFree(s, v), Job(s, v));
  }

  lemma OtherReleaseKeepsOwnership(s: System, i: nat)
    requires Staging.Valid(s.pool) && Ownership(s) && Enabled(s, OtherReleases(i))
    ensures Staging.Valid(Apply(s, OtherReleases(i)).pool) && Ownership(Apply(s, OtherReleases(i)))
  {
    Staging.ReleaseFrame(s.pool, i);
    LossKeepsOwnership(s, Apply(s, OtherReleases(i)), i);
  }

  lemma ReleasesKeepOwnership(s: System, a: Action)
    requires Staging.Valid(s.pool) && Ownership(s) && Linked(s) && Enabled(s, a)
    requires a.WriteStubs? || a.FreesBuffer? || a.OtherReleases?
    ensures Staging.Valid(Apply(s, a).pool) && Ownership(Apply(s, a))
  {
    match a {
      case WriteStubs => StubKeepsOwnership(s);
      case FreesBuffer(v) => FreeKeepsOwnership(s, v);
      case OtherReleases(i) => OtherReleaseKeepsOwnership(s, i);
    }
  }

  lemma StepKeepsOwnership(s: System, a: Action)
    requires Staging.Valid(s.pool) && Ownership(s) && Linked(s)
    ensures Staging.Valid(Step(s, a).pool) && Ownership(Step(s, a))
  {
    if Enabled(s, a) {
      if a.WriteAcquires? || a.OtherAcquires? {
        AcquiresKeepOwnership(s, a);
      } else if a.WriteStubs? || a.FreesBuffer? || a.OtherReleases? {
        ReleasesKeepOwnership(s, a);
      } else {
        StableActions(s, a);
        StableKeepsOwnership(s, Apply(s, a));
      }
    }
  }

  /** The actions that neither acquire nor release. */
  lemma StableActions(s: System, a: Action)
    requires Linked(s) && Enabled(s, a)
    requires !a.WriteAcquires? && !a.OtherAcquires? && !a.WriteStubs? && !a.FreesBuffer? && !a.OtherReleases?
    ensures Stable(s, Apply(s, a))
  {
    if a.WorkerMoves? {
      WorkerMoveIsStable(s, a.action);
    } else if a.CallsDriver? || a.Decrements? {
      CallbackIsStable(s, a);
    } else {
      HostIsStable(s, a);
    }
  }

  /** No buffer changes hands. */
  ghost predicate Stable(s: System, s': System) {
    && s'.pool == s.pool && s'.others == s.others && |s'.writes| == |s.writes|
    && (forall id :: 0 <= id < |s.writes| ==>
          s'.writes[id].buf == s.writes[id].buf && (Holds(s'.writes[id]) ==> Holds(s.writes[id])))
  }

  lemma CallbackIsStable(s: System, a: Action)
    requires Linked(s) && Enabled(s, a) && (a.CallsDriver? || a.Decrements?)
    ensures Stable(s, Apply(s, a))
  {
    match a {
      case CallsDriver(v, ok) => CallIsStable(s, v, ok);
      case Decrements(v) => DecrementIsStable(s, v);
    }
  }

  lemma CallIsStable(s: System, v: nat, ok: bool)
    requires ThreadsLinked(s) && BusyAt(s, v, Running)
    ensures Stable(s, DoCall(s, v, ok))
  {
    assert s.writes[Job(s, v)].stage == s.step[v];
  }

  lemma DecrementIsStable(s: System, v: nat)
    requires ThreadsLinked(s) && BusyAt(s, v, Freed)
    ensures Stable(s, DoDecrement(s, v))
  {
    assert s.writes[Job(s, v)].stage == s.step[v];
  }

  lemma HostIsStable(s: System, a: Action)
    requires HostLinked(s) && Enabled(s, a)
    requires a.WriteSubmits? || a.WriteIsRefused? || a.WriteCounts? || a.WriteCopies? || a.OtherFills? || a.Returns?
      || a.HostScribbles? || a.FlushBegins? || a.FlushSeesZero? || a.FlushExpires? || a.FlushReports? || a.HostGoesOn?
    ensures Stable(s, Apply(s, a))
  {
  }

  lemma WorkerMoveIsStable(s: System, move: Workers.Action)
    requires Linked(s) && Enabled(s, WorkerMoves(move))
    ensures Stable(s, DoWorkerMove(s, move))
  {
    if Starts(s, move) {
      assert s.workers.queue[0] in s.workers.queue;
    }
  }

  /******* Links are kept by every action *******/

  /** The worker pool moves without submitting, starting or finishing a write. */
  ghost predicate WorkersQuiet(w: Workers.State, w': Workers.State) {
    && Workers.TasksSound(w')
    && (forall i :: 0 <= i < |w'.queue| ==> w'.queue[i] in w.queue)
    && (forall v :: 0 <= v < |w'.threads| && w'.threads[v].Executing? ==>
          v < |w.threads| && w'.threads[v] == w.threads[v])
    && w'.orders == w.orders
  }

  lemma QuietMoveKeepsLinked(s: System, w': Workers.State)
    requires Linked(s) && WorkersQuiet(s.workers, w')
    ensures Linked(s.(workers := w'))
  {
    var s' := s.(workers := w');
    forall v | 0 <= v < |w'.threads| && w'.threads[v].Executing?
      ensures Busy(s', v) && s'.writes[Job(s', v)].stage == s'.step[v] && s'.step[v] in {Running, Called, Freed, Settled}
    {
      assert Busy(s, v);
    }
  }

  lemma PassIsQuiet(w: Workers.State, v: nat, seen: nat)
    requires Workers.Enabled(w, Workers.TryExecute(v, seen)) && (w.queue != [] ==> w.queue[0].num != seen)
    ensures var w' := Workers.DoTryExecute(w, v, seen);
      && w'.orders == w.orders && (forall i :: 0 <= i < |w'.queue| ==> w'.queue[i] in w.queue)
      && (forall u :: 0 <= u < |w'.threads| && w'.threads[u].Executing? ==> u < |w.threads| && w'.threads[u] == w.threads[u])
  {
    Workers.PassOnlyRotates(w, v, seen);
  }

  lemma WorkerStepIsQuiet(w: Workers.State, a: Workers.Action)
    requires Workers.TasksSound(w) && Workers.Enabled(w, a) && !a.Submit? && !a.Finish?
    requires a.TryExecute? && w.queue != [] ==> w.queue[0].num != a.seen
    ensures WorkersQuiet(w, Workers.Apply(w, a))
  {
    Workers.StepKeepsTasks(w, a);
    if a.TryExecute? {
      PassIsQuiet(w, a.worker, a.seen);
    } else {
      RestIsQuiet(w, a);
    }
  }

  lemma RestIsQuiet(w: Workers.State, a: Workers.Action)
    requires Workers.Enabled(w, a) && !a.Submit? && !a.Finish? && !a.TryExecute?
    ensures var w' := Workers.Apply(w, a);
      && w'.orders == w.orders && w'.queue == w.queue
      && (forall u :: 0 <= u < |w'.threads| && w'.threads[u].Executing? ==> u < |w.threads| && w'.threads[u] == w.threads[u])
  {
  }

  /** Worker `w` has started the task at the front of the queue. */
  ghost predicate Started(s: System, s': System, w: nat) {
    && w < |s.workers.threads| && s.workers.queue != [] && s.workers.queue[0] in s.owner
    && s.owner[s.workers.queue[0]] < |s.writes|
    && s'.workers == Workers.DoStart(s.workers, w) && Workers.TasksSound(s'.workers)
    && s'.step == s.step[w := Running] && s'.writes == SetStage(s.writes, s.owner[s.workers.queue[0]], Running)
    && s'.owner == s.owner && s'.host == s.host && s'.hasWorkers == s.hasWorkers
  }

  lemma StartKeepsQueue(s: System, s': System, w: nat)
    requires Linked(s) && Started(s, s', w)
    ensures QueueLinked(s')
  {
    forall i | 0 <= i < |s'.workers.queue|
      ensures var t := s'.workers.queue[i];
        t in s'.owner && s'.owner[t] < |s'.writes| && s'.writes[s'.owner[t]].stage == Submitted
    {
      assert s'.workers.queue[i] == s.workers.queue[i + 1] && s.workers.queue[i + 1] != s.workers.queue[0];
    }
  }

  lemma StartKeepsThreads(s: System, s': System, w: nat)
    requires Linked(s) && Started(s, s', w)
    ensures ThreadsLinked(s')
  {
    var id := s.owner[s.workers.queue[0]];
    assert s.writes[id].stage == Submitted by { assert s.workers.queue[0] in s.workers.queue; }
    forall v | 0 <= v < |s'.workers.threads| && s'.workers.threads[v].Executing?
      ensures Busy(s', v) && s'.writes[Job(s', v)].stage == s'.step[v] && s'.step[v] in {Running, Called, Freed, Settled}
    {
      if v != w {
        assert s'.workers.threads[v] == s.workers.threads[v];
        assert Busy(s, v) && Job(s, v) != id;
      }
    }
  }

  lemma StartKeepsHost(s: System, s': System, w: nat)
    requires Linked(s) && Started(s, s', w)
    ensures OwnerSound(s') && HostLinked(s')
  {
    assert s.writes[s.owner[s.workers.queue[0]]].stage == Submitted by { assert s.workers.queue[0] in s.workers.queue; }
  }

  lemma StartKeepsLinked(s: System, a: Workers.Action)
    requires Linked(s) && Starts(s, a)
    ensures Linked(DoWorkerMove(s, a))
  {
    var s' := DoWorkerMove(s, a);
    Workers.StepKeepsTasks(s.workers, a);
    assert Started(s, s', a.worker);
    StartKeepsQueue(s, s', a.worker);
    StartKeepsThreads(s, s', a.worker);
    StartKeepsHost(s, s', a.worker);
  }

  lemma WorkerMoveKeepsLinked(s: System, a: Workers.Action)
    requires Linked(s) && Enabled(s, WorkerMoves(a))
    ensures Linked(DoWorkerMove(s, a))
  {
    if a.TryExecute? && s.workers.queue != [] && s.workers.queue[0].num == a.seen {
      assert s.workers.queue[0] in s.workers.queue;
      StartKeepsLinked(s, a);
    } else {
      WorkerStepIsQuiet(s.workers, a);
      QuietMoveKeepsLinked(s, Workers.Apply(s.workers, a));
    }
  }

  /** One step of worker `v`'s callback. */
  lemma CallbackKeepsLinked(s: System, s': System, v: nat, stage: Stage)
    requires Linked(s) && CallbackMoves(s, s', v, stage)
    ensures Linked(s')
  {
    CallbackKeepsThreads(s, s', v, stage);
    CallbackKeepsHost(s, s', v, stage);
  }

  /** The callback of worker `v` goes on to `stage`. */
  ghost predicate CallbackMoves(s: System, s': System, v: nat, stage: Stage) {
    && Busy(s, v) && stage in {Called, Freed, Settled}
    && s'.workers == s.workers && s'.owner == s.owner && s'.host == s.host && |s'.writes| == |s.writes|
    && s'.step == s.step[v := stage] && s'.hasWorkers == s.hasWorkers
    && var id := Job(s, v);
    && s'.writes[id].stage == stage && s'.writes[id].dataset == s.writes[id].dataset
    && s'.writes[id].counted == s.writes[id].counted
    && forall j :: 0 <= j < |s.writes| && j != id ==> s'.writes[j] == s.writes[j]
  }

  lemma CallbackKeepsThreads(s: System, s': System, v: nat, stage: Stage)
    requires Linked(s) && CallbackMoves(s, s', v, stage)
    ensures ThreadsLinked(s')
  {
    var id := Job(s, v);
    var t := s.workers.threads[v].task;
    forall u | 0 <= u < |s'.workers.threads| && s'.workers.threads[u].Executing?
      ensures Busy(s', u) && s'.writes[Job(s', u)].stage == s'.step[u] && s'.step[u] in {Running, Called, Freed, Settled}
    {
      assert Busy(s, u);
      if u != v {
        assert s.workers.threads[u].task.key != t.key;
        assert Job(s, u) != id;
      }
    }
  }

  lemma CallbackKeepsHost(s: System, s': System, v: nat, stage: Stage)
    requires Linked(s) && CallbackMoves(s, s', v, stage)
    ensures OwnerSound(s') && QueueLinked(s') && HostLinked(s')
  {
    assert s.writes[Job(s, v)].stage == s.step[v] != Submitted;
  }

  lemma ReturnKeepsLinked(s: System, v: nat)
    requires Linked(s) && BusyAt(s, v, Settled)
    ensures Linked(s.(workers := Workers.DoFinish(s.workers, v)))
  {
    var w' := Workers.DoFinish(s.workers, v);
    var s' := s.(workers := w');
    Workers.FinishKeepsTasks(s.workers, v);
    forall u | 0 <= u < |w'.threads| && w'.threads[u].Executing?
      ensures Busy(s', u) && s'.writes[Job(s', u)].stage == s'.step[u] && s'.step[u] in {Running, Called, Freed, Settled}
    {
      assert w'.threads[u] == s.workers.threads[u];
      assert Busy(s, u);
    }
    forall t | t in s'.owner ensures t.num < Workers.Next(w', t.key) {
      assert t.num < Workers.Next(s.workers, t.key);
    }
  }

  lemma SubmitKeepsOwners(s: System, variable: nat)
    requires Linked(s) && Enabled(s, WriteSubmits(variable))
    ensures OwnerSound(DoSubmit(s, variable))
  {
    var s' := DoSubmit(s, variable);
    var id := s.host.id;
    var k := Workers.Key(s.writes[id].dataset, variable);
    var t := Workers.Task(k, Workers.Next(s.workers, k));
    Workers.SubmitKeepsTasks(s.workers, k);
    assert t !in s.owner;
    forall u | u in s.owner
      ensures s.owner[u] != id && u.num < Workers.Next(s'.workers, u.key)
    {
      assert u.num < Workers.Next(s.workers, u.key);
      assert s.writes[s.owner[u]].stage != Staged;
    }
  }

  lemma SubmitKeepsQueueAndThreads(s: System, variable: nat)
    requires Linked(s) && Enabled(s, WriteSubmits(variable)) && OwnerSound(DoSubmit(s, variable))
    ensures QueueLinked(DoSubmit(s, variable)) && ThreadsLinked(DoSubmit(s, variable))
  {
    var s' := DoSubmit(s, variable);
    var id := s.host.id;
    var n := |s.workers.queue|;
    assert forall u :: u in s.owner ==> s.owner[u] != id;
    assert s'.workers.queue[n] in s'.owner && s'.owner[s'.workers.queue[n]] == id;
    forall i | 0 <= i < n ensures s'.workers.queue[i] == s.workers.queue[i] && s.workers.queue[i] in s.owner {}
    forall u | u in s.owner ensures u in s'.owner && s'.owner[u] == s.owner[u] {
      assert u.num < Workers.Next(s.workers, u.key);
    }
    forall v | 0 <= v < |s'.workers.threads| && s'.workers.threads[v].Executing?
      ensures Busy(s', v) && s'.writes[Job(s', v)].stage == s'.step[v] && s'.step[v] in {Running, Called, Freed, Settled}
    {
      assert Busy(s, v);
    }
  }

  lemma SubmitKeepsLinked(s: System, variable: nat)
    requires Linked(s) && Enabled(s, WriteSubmits(variable))
    ensures Linked(DoSubmit(s, variable))
  {
    SubmitKeepsOwners(s, variable);
    SubmitKeepsQueueAndThreads(s, variable);
  }

  /** The host's own steps on the write it is in, without a submission. */
  lemma HostStepKeepsLinked(s: System, s': System, id: nat)
    requires Linked(s) && HostLinked(s') && id < |s.writes|
    requires s'.workers == s.workers && s'.owner == s.owner && s'.step == s.step && |s'.writes| == |s.writes|
    requires forall j :: 0 <= j < |s.writes| && j != id ==> s'.writes[j] == s.writes[j]
    requires s'.writes[id].dataset == s.writes[id].dataset
    requires s'.writes[id].stage == s.writes[id].stage || s.writes[id].stage == Staged
    ensures Linked(s')
  {
    forall v | 0 <= v < |s'.workers.threads| && s'.workers.threads[v].Executing?
      ensures Busy(s', v) && s'.writes[Job(s', v)].stage == s'.step[v] && s'.step[v] in {Running, Called, Freed, Settled}
    {
      assert Busy(s, v);
    }
  }

  lemma AcquireKeepsLinked(s: System, d: nat)
    requires Linked(s) && Enabled(s, WriteAcquires(d))
    ensures Linked(DoAcquire(s, d))
  {
    var r := Staging.TryAcquire(s.pool, |s.hostBytes|).1;
    if r.Some? {
      NewWriteKeepsLinked(s, DoAcquire(s, d), NewWrite(s, d, r.value));
    }
  }

  lemma NewWriteKeepsLinked(s: System, s': System, w: Write)
    requires Linked(s) && s.host.Away? && w.stage == Staged && s'.writes == s.writes + [w]
    requires s'.workers == s.workers && s'.owner == s.owner && s'.step == s.step && s'.hasWorkers == s.hasWorkers
    requires s'.host == Writing(|s.writes|, false)
    ensures Linked(s')
  {
    forall v | 0 <= v < |s'.workers.threads| && s'.workers.threads[v].Executing?
      ensures Busy(s', v) && s'.writes[Job(s', v)].stage == s'.step[v] && s'.step[v] in {Running, Called, Freed, Settled}
    {
      assert Busy(s, v);
    }
  }

  /** Actions of the read path and of flush leave tasks and writes alone. */
  lemma BystanderKeepsLinked(s: System, s': System)
    requires Linked(s) && HostLinked(s')
    requires s'.workers == s.workers && s'.owner == s.owner && s'.step == s.step && s'.writes == s.writes
    ensures Linked(s')
  {
    forall v | 0 <= v < |s'.workers.threads| && s'.workers.threads[v].Executing?
      ensures Busy(s', v) && s'.writes[Job(s', v)].stage == s'.step[v] && s'.step[v] in {Running, Called, Freed, Settled}
    {
      assert Busy(s, v);
    }
  }

  lemma CallKeepsLinked(s: System, v: nat, ok: bool)
    requires Linked(s) && BusyAt(s, v, Running)
    ensures Linked(DoCall(s, v, ok))
  {
    CallbackKeepsLinked(s, DoCall(s, v, ok), v, Called);
  }

  lemma FreeKeepsLinked(s: System, v: nat)
    requires Linked(s) && Enabled(s, FreesBuffer(v))
    ensures Linked(DoFree(s, v))
  {
    CallbackKeepsLinked(s, DoFree(s, v), v, Freed);
  }

  lemma DecrementKeepsLinked(s: System, v: nat)
    requires Linked(s) && BusyAt(s, v, Freed)
    ensures Linked(DoDecrement(s, v))
  {
    CallbackKeepsLinked(s, DoDecrement(s, v), v, Settled);
  }

  lemma HostStepsKeepLinked(s: System, a: Action)
    requires Linked(s) && Enabled(s, a) && (a.WriteIsRefused? || a.WriteCounts? || a.WriteStubs?)
    ensures Linked(Apply(s, a))
  {
    HostStepKeepsLinked(s, Apply(s, a), s.host.id);
  }

  lemma BystandersKeepLinked(s: System, a: Action)
    requires Linked(s) && Enabled(s, a) && Bystander(a)
    ensures Linked(Apply(s, a))
  {
    BystanderFrame(s, a);
    BystanderKeepsLinked(s, Apply(s, a));
  }

  /** What a bystander leaves as it is. */
  ghost predicate Aside(s: System, s': System) {
    && HostLinked(s')
    && s'.workers == s.workers && s'.owner == s.owner && s'.step == s.step && s'.writes == s.writes
  }

  lemma BystanderFrame(s: System, a: Action)
    requires HostLinked(s) && Enabled(s, a) && Bystander(a)
    ensures Aside(s, Apply(s, a))
  {
    match a
    case OtherAcquires(n) => OtherAcquireAside(s, n);
    case OtherFills(i, bytes) => OtherFillAside(s, i, bytes);
    case OtherReleases(i) => OtherReleaseAside(s, i);
    case WriteCopies => CopyAside(s);
    case _ => FlushAside(s, a);
  }

  lemma OtherAcquireAside(s: System, n: nat)
    requires HostLinked(s) && Enabled(s, OtherAcquires(n))
    ensures Aside(s, Apply(s, OtherAcquires(n)))
  {
  }

  lemma OtherFillAside(s: System, i: nat, bytes: Bytes)
    requires HostLinked(s) && Enabled(s, OtherFills(i, bytes))
    ensures Aside(s, Apply(s, OtherFills(i, bytes)))
  {
  }

  lemma OtherReleaseAside(s: System, i: nat)
    requires HostLinked(s) && Enabled(s, OtherReleases(i))
    ensures Aside(s, Apply(s, OtherReleases(i)))
  {
  }

  lemma CopyAside(s: System)
    requires HostLinked(s) && Enabled(s, WriteCopies)
    ensures Aside(s, Apply(s, WriteCopies))
  {
  }

  lemma FlushAside(s: System, a: Action)
    requires HostLinked(s) && Enabled(s, a)
    requires a.HostScribbles? || a.FlushBegins? || a.FlushSeesZero? || a.FlushExpires? || a.FlushReports? || a.HostGoesOn?
    ensures Aside(s, Apply(s, a))
  {
  }

  predicate Bystander(a: Action) {
    a.HostScribbles? || a.WriteCopies? || a.OtherAcquires? || a.OtherFills? || a.OtherReleases?
    || a.FlushBegins? || a.FlushSeesZero? || a.FlushExpires? || a.FlushReports? || a.HostGoesOn?
  }

  lemma CallbacksKeepLinked(s: System, a: Action)
    requires Linked(s) && Enabled(s, a) && (a.CallsDriver? || a.FreesBuffer? || a.Decrements? || a.Returns?)
    ensures Linked(Apply(s, a))
  {
    match a {
      case CallsDriver(v, ok) => CallKeepsLinked(s, v, ok);
      case FreesBuffer(v) => FreeKeepsLinked(s, v);
      case Decrements(v) => DecrementKeepsLinked(s, v);
      case Returns(v) => ReturnKeepsLinked(s, v);
    }
  }

  lemma StepKeepsLinked(s: System, a: Action)
    requires Linked(s)
    ensures Linked(Step(s, a))
  {
    if Enabled(s, a) {
      if Bystander(a) {
        BystandersKeepLinked(s, a);
      } else if a.CallsDriver? || a.FreesBuffer? || a.Decrements? || a.Returns? {
        CallbacksKeepLinked(s, a);
      } else if a.WriteIsRefused? || a.WriteCounts? || a.WriteStubs? {
        HostStepsKeepLinked(s, a);
      } else if a.WorkerMoves? {
        WorkerMoveKeepsLinked(s, a.action);
      } else if a.WriteAcquires? {
        AcquireKeepsLinked(s, a.dataset);
      } else {
        SubmitKeepsLinked(s, a.variable);
      }
    }
  }

  /******* Invariant: the pending counter *******/

  /** The contribution of one write to the pending counter of dataset `d`. */
  function Term(w: Write, d: nat): int {
    if w.dataset == d then (if w.counted then 1 else 0) - w.debits else 0
  }

  function Balance(ws: seq<Write>, d: nat): int {
    if ws == [] then 0 else Balance(ws[..|ws| - 1], d) + Term(ws[|ws| - 1], d)
  }

  /** The modular counter is the balance of the writes; a worker may debit a write before
      the host has credited it.  Each write is credited when `write` returns and debited
      when its callback settles it. */
  ghost predicate CountsSound(s: System) {
    && (forall d :: PendingOf(s, d) == Balance(s.writes, d) % TWO_64)
    && (forall id :: 0 <= id < |s.writes| ==> CountSound(s, id))
  }

  ghost predicate CountSound(s: System, id: nat)
    requires id < |s.writes|
  {
    var w := s.writes[id];
    && w.debits == (if w.stage == Settled then 1 else 0)
    && (w.counted <==> w.stage != Stubbed && w.stage != Staged && s.host != Counting(id))
    && (w.stage == Stubbed ==> !s.hasWorkers)
    && (!s.hasWorkers ==> w.stage == Staged || w.stage == Stubbed)
  }

  lemma {:induction false} BalanceUpdate(ws: seq<Write>, id: nat, w: Write, d: nat)
    requires id < |ws|
    ensures Balance(ws[id := w], d) == Balance(ws, d) - Term(ws[id], d) + Term(w, d)
  {
    var n := |ws| - 1;
    if id < n {
      assert ws[id := w][..n] == ws[..n][id := w];
      BalanceUpdate(ws[..n], id, w, d);
    } else {
      assert ws[id := w][..n] == ws[..n];
    }
  }

  lemma BalanceAppend(ws: seq<Write>, w: Write, d: nat)
    ensures Balance(ws + [w], d) == Balance(ws, d) + Term(w, d)
  {
    assert (ws + [w])[..|ws|] == ws;
  }

  lemma ModAdd(x: int)
    ensures (x % TWO_64 + 1) % TWO_64 == (x + 1) % TWO_64
    ensures (x % TWO_64 + TWO_64 - 1) % TWO_64 == (x - 1) % TWO_64
  {
  }

  /** Replacing write `id` by `w` changes the counter of its dataset by `delta`. */
  lemma UpdateKeepsPending(s: System, s': System, id: nat, w: Write, delta: int)
    requires forall d :: PendingOf(s, d) == Balance(s.writes, d) % TWO_64
    requires id < |s.writes| && s'.writes == s.writes[id := w] && w.dataset == s.writes[id].dataset
    requires Term(w, w.dataset) == Term(s.writes[id], w.dataset) + delta
    requires delta == 0 ==> s'.pending == s.pending
    requires delta == 1 ==> s'.pending == Credit(s, w.dataset)
    requires delta == -1 ==> s'.pending == Debit(s, w.dataset)
    requires -1 <= delta <= 1
    ensures forall d :: PendingOf(s', d) == Balance(s'.writes, d) % TWO_64
  {
    forall d ensures PendingOf(s', d) == Balance(s'.writes, d) % TWO_64 {
      BalanceUpdate(s.writes, id, w, d);
      ModAdd(Balance(s.writes, d));
    }
  }

  lemma HostStepKeepsCounts(s: System, a: Action)
    requires Linked(s) && CountsSound(s) && Enabled(s, a)
    requires a.WriteSubmits? || a.WriteIsRefused? || a.WriteCounts? || a.WriteStubs?
    ensures CountsSound(Apply(s, a))
  {
    var s' := Apply(s, a);
    var id := s.host.id;
    assert CountSound(s, id);
    UpdateKeepsPending(s, s', id, s'.writes[id], if a.WriteCounts? then 1 else 0);
    forall j | 0 <= j < |s'.writes| ensures CountSound(s', j) {
      assert CountSound(s, j);
    }
  }

  /** One write is relabelled, and the pending counter follows. */
  lemma RelabelKeepsCounts(s: System, s': System, id: nat, delta: int)
    requires CountsSound(s) && id < |s.writes| == |s'.writes| && s'.writes == s.writes[id := s'.writes[id]] && s'.hasWorkers == s.hasWorkers
    requires s'.host == s.host && CountSound(s', id) && s'.writes[id].dataset == s.writes[id].dataset
    requires Term(s'.writes[id], s.writes[id].dataset) == Term(s.writes[id], s.writes[id].dataset) + delta && -1 <= delta <= 0
    requires s'.pending == if delta == 0 then s.pending else Debit(s, s.writes[id].dataset)
    ensures CountsSound(s')
  {
    UpdateKeepsPending(s, s', id, s'.writes[id], delta);
    forall j | 0 <= j < |s'.writes| ensures CountSound(s', j) {
      if j != id { assert CountSound(s, j); }
    }
  }

  lemma CallKeepsCounts(s: System, v: nat, ok: bool)
    requires Linked(s) && CountsSound(s) && BusyAt(s, v, Running)
    ensures CountsSound(DoCall(s, v, ok))
  {
    assert CountSound(s, Job(s, v)) && s.writes[Job(s, v)].stage == s.step[v];
    RelabelKeepsCounts(s, DoCall(s, v, ok), Job(s, v), 0);
  }

  lemma FreeKeepsCounts(s: System, v: nat)
    requires Linked(s) && CountsSound(s) && Enabled(s, FreesBuffer(v))
    ensures CountsSound(DoFree(s, v))
  {
    assert CountSound(s, Job(s, v)) && s.writes[Job(s, v)].stage == s.step[v];
    RelabelKeepsCounts(s, DoFree(s, v), Job(s, v), 0);
  }

  lemma DecrementKeepsCounts(s: System, v: nat)
    requires Linked(s) && CountsSound(s) && BusyAt(s, v, Freed)
    ensures CountsSound(DoDecrement(s, v))
  {
    assert CountSound(s, Job(s, v)) && s.writes[Job(s, v)].stage == s.step[v];
    RelabelKeepsCounts(s, DoDecrement(s, v), Job(s, v), -1);
  }

  lemma CallbackKeepsCounts(s: System, a: Action)
    requires Linked(s) && CountsSound(s) && Enabled(s, a)
    requires a.CallsDriver? || a.FreesBuffer? || a.Decrements?
    ensures CountsSound(Apply(s, a))
  {
    match a {
      case CallsDriver(v, ok) => CallKeepsCounts(s, v, ok);
      case FreesBuffer(v) => FreeKeepsCounts(s, v);
      case Decrements(v) => DecrementKeepsCounts(s, v);
    }
  }

  lemma StartKeepsCounts(s: System, a: Workers.Action)
    requires Linked(s) && CountsSound(s) && Starts(s, a)
    ensures CountsSound(DoWorkerMove(s, a))
  {
    var s' := DoWorkerMove(s, a);
    var id := s.owner[s.workers.queue[0]];
    assert s.workers.queue[0] in s.workers.queue;
    assert CountSound(s, id);
    UpdateKeepsPending(s, s', id, s'.writes[id], 0);
    forall j | 0 <= j < |s'.writes| ensures CountSound(s', j) {
      assert CountSound(s, j);
    }
  }

  lemma AcquireKeepsCounts(s: System, d: nat)
    requires CountsSound(s) && Enabled(s, WriteAcquires(d))
    ensures CountsSound(DoAcquire(s, d))
  {
    var r := Staging.TryAcquire(s.pool, |s.hostBytes|).1;
    if r.Some? {
      AppendKeepsCounts(s, DoAcquire(s, d), NewWrite(s, d, r.value));
    }
  }

  lemma AppendKeepsCounts(s: System, s': System, w: Write)
    requires CountsSound(s) && s.host.Away? && s'.writes == s.writes + [w] && s'.pending == s.pending
    requires s'.hasWorkers == s.hasWorkers && s'.host.Writing? && w.stage == Staged && !w.counted && w.debits == 0
    ensures CountsSound(s')
  {
    forall e ensures PendingOf(s', e) == Balance(s'.writes, e) % TWO_64 {
      assert PendingOf(s, e) == Balance(s.writes, e) % TWO_64;
      BalanceAppend(s.writes, w, e);
    }
    forall j | 0 <= j < |s'.writes| ensures CountSound(s', j) {
      if j < |s.writes| { assert CountSound(s, j); }
    }
  }

  lemma BystanderKeepsCounts(s: System, s': System)
    requires CountsSound(s) && s'.writes == s.writes && s'.pending == s.pending && s'.hasWorkers == s.hasWorkers
    requires (!s.host.Counting? && !s'.host.Counting?) || s'.host == s.host
    ensures CountsSound(s')
  {
    forall d ensures PendingOf(s', d) == Balance(s'.writes, d) % TWO_64 {
      assert PendingOf(s, d) == Balance(s.writes, d) % TWO_64;
    }
    forall j | 0 <= j < |s'.writes| ensures CountSound(s', j) {
      assert CountSound(s, j);
    }
  }

  lemma QuietActionsKeepCounts(s: System, a: Action)
    requires CountsSound(s) && Enabled(s, a) && (Bystander(a) || a.Returns? || (a.WorkerMoves? && !Starts(s, a.action)))
    ensures CountsSound(Apply(s, a))
  {
    if a.Returns? || a.WorkerMoves? {
      BystanderKeepsCounts(s, Apply(s, a));
    } else if a.WriteCopies? || a.OtherAcquires? || a.OtherFills? || a.OtherReleases? {
      OthersKeepCounts(s, a);
    } else {
      FlushKeepsCounts(s, a);
    }
  }

  lemma OthersKeepCounts(s: System, a: Action)
    requires CountsSound(s) && Enabled(s, a) && (a.WriteCopies? || a.OtherAcquires? || a.OtherFills? || a.OtherReleases?)
    ensures CountsSound(Apply(s, a))
  {
    BystanderKeepsCounts(s, Apply(s, a));
  }

  lemma FlushKeepsCounts(s: System, a: Action)
    requires CountsSound(s) && Enabled(s, a)
    requires a.HostScribbles? || a.FlushBegins? || a.FlushSeesZero? || a.FlushExpires? || a.FlushReports? || a.HostGoesOn?
    ensures CountsSound(Apply(s, a))
  {
    BystanderKeepsCounts(s, Apply(s, a));
  }

  lemma StepKeepsCounts(s: System, a: Action)
    requires Linked(s) && CountsSound(s)
    ensures CountsSound(Step(s, a))
  {
    if Enabled(s, a) {
      if a.WriteAcquires? {
        AcquireKeepsCounts(s, a.dataset);
      } else if a.WriteSubmits? || a.WriteIsRefused? || a.WriteCounts? || a.WriteStubs? {
        HostStepKeepsCounts(s, a);
      } else if a.CallsDriver? || a.FreesBuffer? || a.Decrements? {
        CallbackKeepsCounts(s, a);
      } else if a.WorkerMoves? && Starts(s, a.action) {
        StartKeepsCounts(s, a.action);
      } else {
        QuietActionsKeepCounts(s, a);
      }
    }
  }

  /******* Invariant: contents *******/

  /** From the copy until the release, a write's buffer holds its snapshot; the driver is
      handed that snapshot, once; and a driver that threw is on record. */
  ghost predicate ContentSound(s: System, id: nat)
    requires id < |s.writes|
  {
    var w := s.writes[id];
    && (Holds(w) && s.host != Writing(id, false) ==> Staging.Block(s.pool, w.buf).Some? && Staging.Block(s.pool, w.buf).value in s.memory
                                                     && BytesAt(s, w.buf) == w.snap)
    && (s.host == Writing(id, false) ==> s.hostBytes == w.snap)
    && w.delivered == (if w.stage in {Called, Freed, Settled} then [w.snap] else [])
    && (w.threw ==> w.stage in {Called, Freed, Settled} && w.dataset in s.failed)
    && (w.completed <==> w.stage == Stubbed || (w.stage in {Called, Freed, Settled} && !w.threw))
  }

  ghost predicate ContentsSound(s: System) {
    forall id :: 0 <= id < |s.writes| ==> ContentSound(s, id)
  }

  /** Buffers that a write holds keep their block, and its bytes, when memory changes
      only in blocks of other slots. */
  lemma FrameContent(s: System, s': System, id: nat)
    requires id < |s.writes| && id < |s'.writes| && ContentSound(s, id) && s'.writes[id] == s.writes[id]
    requires s.failed <= s'.failed
    requires s'.host == s.host || (s'.host != Writing(id, false) && s.host != Writing(id, false))
    requires s'.host == Writing(id, false) ==> s'.hostBytes == s.hostBytes
    requires Holds(s.writes[id]) && s.host != Writing(id, false) ==>
      && Staging.Block(s'.pool, s.writes[id].buf) == Staging.Block(s.pool, s.writes[id].buf)
      && Staging.Block(s.pool, s.writes[id].buf).value in s'.memory
      && s'.memory[Staging.Block(s.pool, s.writes[id].buf).value] == s.memory[Staging.Block(s.pool, s.writes[id].buf).value]
    ensures ContentSound(s', id)
  {
  }

  ghost predicate Core(s: System) {
    Staging.Valid(s.pool) && Ownership(s) && Linked(s) && ContentsSound(s)
  }

  /** Memory is written only through slot `i`, which the writer holds. */
  lemma FillKeepsContents(s: System, s': System, i: nat, bytes: Bytes)
    requires Core(s) && Staging.Held(s.pool, i) && s'.pool == s.pool && s'.writes == s.writes
    requires s'.memory == s.memory[Staging.Block(s.pool, i).value := bytes]
    requires s'.failed == s.failed && s'.hostBytes == s.hostBytes
    requires
      || (s'.host == s.host && forall id :: 0 <= id < |s.writes| && Holds(s.writes[id]) ==> s.writes[id].buf != i)
      || (s.host.Writing? && !s.host.copied && s'.host == s.host.(copied := true)
          && s.host.id < |s.writes| && s.writes[s.host.id].buf == i && bytes == s.hostBytes)
    ensures ContentsSound(s')
  {
    forall id | 0 <= id < |s'.writes| ensures ContentSound(s', id) {
      assert ContentSound(s, id);
      if s'.host == s.host || id != s.host.id {
        if Holds(s.writes[id]) {
          assert s.writes[id].buf != i by {
            if s'.host != s.host { assert Holds(s.writes[s.host.id]); }
          }
          Staging.HeldBlocksDiffer(s.pool, s.writes[id].buf, i);
        }
        FrameContent(s, s', id);
      }
    }
  }

  lemma CopyKeepsContents(s: System)
    requires Core(s) && Enabled(s, WriteCopies)
    ensures ContentsSound(Apply(s, WriteCopies))
  {
    assert Holds(s.writes[s.host.id]);
    FillKeepsContents(s, Apply(s, WriteCopies), s.writes[s.host.id].buf, s.hostBytes);
  }

  lemma OtherFillKeepsContents(s: System, i: nat, bytes: Bytes)
    requires Core(s) && Enabled(s, OtherFills(i, bytes))
    ensures ContentsSound(Apply(s, OtherFills(i, bytes)))
  {
    FillKeepsContents(s, Apply(s, OtherFills(i, bytes)), i, bytes);
  }

  lemma PoolGrowsKeepsContents(s: System, s': System, w: seq<Write>)
    requires ContentsSound(s) && Ownership(s) && s'.memory == s.memory && s'.failed == s.failed && s'.hostBytes == s.hostBytes
    requires s'.writes == s.writes + w && (w == [] ==> s'.host == s.host)
    requires w != [] ==> s.host.Away? && |w| == 1 && s'.host == Writing(|s.writes|, false) && ContentSound(s', |s.writes|)
    requires forall j :: Staging.Held(s.pool, j) ==> Staging.Block(s'.pool, j) == Staging.Block(s.pool, j)
    ensures ContentsSound(s')
  {
    forall id | 0 <= id < |s'.writes| ensures ContentSound(s', id) {
      if id < |s.writes| {
        assert ContentSound(s, id);
        FrameContent(s, s', id);
      }
    }
  }

  lemma WriteAcquireKeepsContents(s: System, d: nat)
    requires Core(s) && Enabled(s, WriteAcquires(d))
    ensures ContentsSound(DoAcquire(s, d))
  {
    var n := |s.hostBytes|;
    Staging.AcquireFrame(s.pool, n);
    var r := Staging.TryAcquire(s.pool, n).1;
    if r.Some? {
      PoolGrowsKeepsContents(s, DoAcquire(s, d), [NewWrite(s, d, r.value)]);
    }
  }

  lemma OtherAcquireKeepsContents(s: System, n: nat)
    requires Core(s) && Enabled(s, OtherAcquires(n))
    ensures ContentsSound(Apply(s, OtherAcquires(n)))
  {
    Staging.AcquireFrame(s.pool, n);
    PoolGrowsKeepsContents(s, Apply(s, OtherAcquires(n)), []);
  }

  /** A release hands back a buffer that no other write holds; `done` is the write that
      gave it up, if one did. */
  lemma ReleaseKeepsContents(s: System, s': System, i: nat, done: int)
    requires Core(s) && Staging.Held(s.pool, i) && s'.pool == Staging.Release(s.pool, i) && s'.memory == s.memory
    requires s'.failed == s.failed && |s'.writes| == |s.writes| && s'.hostBytes == s.hostBytes
    requires s'.host == s.host || (s.host.Writing? && s.host.copied && s'.host.Away?)
    requires forall id :: 0 <= id < |s.writes| && id != done ==>
      s'.writes[id] == s.writes[id] && (Holds(s.writes[id]) ==> s.writes[id].buf != i)
    requires 0 <= done < |s.writes| ==> ContentSound(s', done)
    ensures ContentsSound(s')
  {
    Staging.ReleaseFrame(s.pool, i);
    forall id | 0 <= id < |s'.writes| ensures ContentSound(s', id) {
      if id != done {
        assert ContentSound(s, id);
        FrameContent(s, s', id);
      }
    }
  }

  lemma StubKeepsContents(s: System)
    requires Core(s) && Enabled(s, WriteStubs)
    ensures ContentsSound(Apply(s, WriteStubs))
  {
    var id := s.host.id;
    assert Holds(s.writes[id]) && ContentSound(s, id);
    ReleaseKeepsContents(s, Apply(s, WriteStubs), s.writes[id].buf, id);
  }

  lemma FreeKeepsContents(s: System, v: nat)
    requires Core(s) && Enabled(s, FreesBuffer(v))
    ensures ContentsSound(DoFree(s, v))
  {
    var id := Job(s, v);
    assert Holds(s.writes[id]) && ContentSound(s, id);
    ReleaseKeepsContents(s, DoFree(s, v), s.writes[id].buf, id);
  }

  lemma OtherReleaseKeepsContents(s: System, i: nat)
    requires Core(s) && Enabled(s, OtherReleases(i))
    ensures ContentsSound(Apply(s, OtherReleases(i)))
  {
    ReleaseKeepsContents(s, Apply(s, OtherReleases(i)), i, -1);
  }

  /** One write is relabelled; pool and memory stay as they are. */
  lemma RelabelKeepsContents(s: System, s': System, id: nat)
    requires ContentsSound(s) && id < |s.writes| && |s'.writes| == |s.writes| && ContentSound(s', id)
    requires s'.pool == s.pool && s'.memory == s.memory && s.failed <= s'.failed && s'.hostBytes == s.hostBytes
    requires s'.host == s.host || ((s.host.Writing? ==> s.host.copied) && !s'.host.Writing?)
    requires forall j :: 0 <= j < |s.writes| && j != id ==> s'.writes[j] == s.writes[j]
    ensures ContentsSound(s')
  {
    forall j | 0 <= j < |s'.writes| ensures ContentSound(s', j) {
      if j != id {
        assert ContentSound(s, j);
        FrameContent(s, s', j);
      }
    }
  }

  lemma HostStepsKeepContents(s: System, a: Action)
    requires Core(s) && Enabled(s, a) && (a.WriteSubmits? || a.WriteIsRefused? || a.WriteCounts?)
    ensures ContentsSound(Apply(s, a))
  {
    assert ContentSound(s, s.host.id);
    RelabelKeepsContents(s, Apply(s, a), s.host.id);
  }

  lemma CallKeepsContents(s: System, v: nat, ok: bool)
    requires Linked(s) && ContentsSound(s) && BusyAt(s, v, Running)
    ensures ContentsSound(DoCall(s, v, ok))
  {
    var id := Job(s, v);
    assert s.writes[id].stage == s.step[v];
    assert ContentSound(s, id);
    RelabelKeepsContents(s, DoCall(s, v, ok), id);
  }

  lemma DecrementKeepsContents(s: System, v: nat)
    requires Linked(s) && ContentsSound(s) && BusyAt(s, v, Freed)
    ensures ContentsSound(DoDecrement(s, v))
  {
    var id := Job(s, v);
    assert s.writes[id].stage == s.step[v];
    assert ContentSound(s, id);
    RelabelKeepsContents(s, DoDecrement(s, v), id);
  }

  lemma StartKeepsContents(s: System, b: Workers.Action)
    requires Core(s) && Starts(s, b)
    ensures ContentsSound(DoWorkerMove(s, b))
  {
    var id := s.owner[s.workers.queue[0]];
    assert s.workers.queue[0] in s.workers.queue;
    assert s.writes[id].stage == Submitted;
    assert ContentSound(s, id);
    RelabelKeepsContents(s, DoWorkerMove(s, b), id);
  }

  lemma BystanderKeepsContents(s: System, s': System)
    requires ContentsSound(s) && s'.pool == s.pool && s'.memory == s.memory && s'.failed == s.failed
    requires s'.writes == s.writes
    requires (s'.host == s.host && (s.host.Writing? ==> s'.hostBytes == s.hostBytes)) || (!s.host.Writing? && !s'.host.Writing?)
    ensures ContentsSound(s')
  {
    forall j | 0 <= j < |s'.writes| ensures ContentSound(s', j) {
      assert ContentSound(s, j);
    }
  }

  lemma QuietActionsKeepContents(s: System, a: Action)
    requires ContentsSound(s) && Enabled(s, a) && (a.WorkerMoves? ==> !Starts(s, a.action))
    requires a.WorkerMoves? || a.Returns? || a.HostScribbles? || a.FlushBegins? || a.FlushSeesZero? || a.FlushExpires?
      || a.FlushReports? || a.HostGoesOn?
    ensures ContentsSound(Apply(s, a))
  {
    BystanderKeepsContents(s, Apply(s, a));
  }

  lemma BufferActionsKeepContents(s: System, a: Action)
    requires Core(s) && Enabled(s, a)
    requires a.WriteAcquires? || a.OtherAcquires? || a.WriteStubs? || a.FreesBuffer? || a.OtherReleases?
    ensures ContentsSound(Apply(s, a))
  {
    match a {
      case WriteAcquires(d) => WriteAcquireKeepsContents(s, d);
      case OtherAcquires(n) => OtherAcquireKeepsContents(s, n);
      case WriteStubs => StubKeepsContents(s);
      case FreesBuffer(v) => FreeKeepsContents(s, v);
      case OtherReleases(i) => OtherReleaseKeepsContents(s, i);
    }
  }

  lemma OtherActionsKeepContents(s: System, a: Action)
    requires Core(s) && Enabled(s, a)
    requires a.WriteCopies? || a.OtherFills? || a.CallsDriver? || a.Decrements? || (a.WorkerMoves? && Starts(s, a.action))
    ensures ContentsSound(Apply(s, a))
  {
    match a {
      case WriteCopies => CopyKeepsContents(s);
      case OtherFills(i, bytes) => OtherFillKeepsContents(s, i, bytes);
      case CallsDriver(v, ok) => CallKeepsContents(s, v, ok);
      case Decrements(v) => DecrementKeepsContents(s, v);
      case WorkerMoves(b) => StartKeepsContents(s, b);
    }
  }

  lemma StepKeepsContents(s: System, a: Action)
    requires Core(s)
    ensures ContentsSound(Step(s, a))
  {
    if Enabled(s, a) {
      if a.WriteAcquires? || a.OtherAcquires? || a.WriteStubs? || a.FreesBuffer? || a.OtherReleases? {
        BufferActionsKeepContents(s, a);
      } else if a.WriteSubmits? || a.WriteIsRefused? || a.WriteCounts? {
        HostStepsKeepContents(s, a);
      } else if a.WriteCopies? || a.OtherFills? || a.CallsDriver? || a.Decrements? || (a.WorkerMoves? && Starts(s, a.action)) {
        OtherActionsKeepContents(s, a);
      } else {
        QuietActionsKeepContents(s, a);
      }
    }
  }

  /******* Invariant: flush *******/

  ghost predicate AllSettled(s: System, d: nat) {
    forall id :: 0 <= id < |s.writes| && s.writes[id].dataset == d ==> s.writes[id].stage == Settled
  }

  /** A failure is recorded only for a dataset with a write whose driver call threw. */
  ghost predicate FailuresReal(s: System) {
    forall d :: d in s.failed ==> exists id :: 0 <= id < |s.writes| && s.writes[id].dataset == d && s.writes[id].threw
  }

  /** The pool has workers, and the 64-bit pending counter has not been exhausted. */
  predicate InService(s: System) {
    s.hasWorkers && |s.writes| < TWO_64
  }

  /** Once `flush` has seen zero, every write on the dataset has settled, and stays so
      while the host is inside `flush`; the status then tells whether one of them threw. */
  ghost predicate FlushSound(s: System) {
    && (InService(s) && s.host.Checking? ==> AllSettled(s, s.host.dataset))
    && (InService(s) && s.host.Flushed? && s.host.status != Timeout ==>
          && AllSettled(s, s.host.dataset)
          && s.host.status == if s.host.dataset in s.failed then BackendFailure else Ok)
  }

  lemma {:induction false} BalanceZero(ws: seq<Write>, d: nat)
    requires forall id :: 0 <= id < |ws| && ws[id].dataset == d ==>
      ws[id].counted && ws[id].debits == if ws[id].stage == Settled then 1 else 0
    ensures 0 <= Balance(ws, d) <= |ws|
    ensures Balance(ws, d) == 0 ==> forall id :: 0 <= id < |ws| && ws[id].dataset == d ==> ws[id].stage == Settled
  {
    if ws != [] {
      var n := |ws| - 1;
      forall id | 0 <= id < n ensures ws[..n][id] == ws[id] {}
      BalanceZero(ws[..n], d);
    }
  }

  lemma ZeroMeansSettled(s: System, d: nat)
    requires Linked(s) && CountsSound(s) && InService(s) && !s.host.Writing? && !s.host.Counting?
    requires PendingOf(s, d) == 0
    ensures AllSettled(s, d)
  {
    forall id | 0 <= id < |s.writes|
      ensures s.writes[id].counted && s.writes[id].debits == if s.writes[id].stage == Settled then 1 else 0
    {
      assert CountSound(s, id);
    }
    BalanceZero(s.writes, d);
    assert PendingOf(s, d) == Balance(s.writes, d) % TWO_64;
  }

  /** A worker touches only a write that has not settled, hence not one on a dataset that
      `flush` has seen drained. */
  lemma UnsettledKeepsFlush(s: System, s': System, id: nat)
    requires FlushSound(s) && id < |s.writes| && s.writes[id].stage != Settled
    requires s'.host == s.host && s'.hasWorkers == s.hasWorkers && |s'.writes| == |s.writes|
    requires s'.failed == s.failed || s'.failed == s.failed + {s.writes[id].dataset}
    requires s'.writes[id].dataset == s.writes[id].dataset
    requires forall j :: 0 <= j < |s.writes| && j != id ==> s'.writes[j] == s.writes[j]
    ensures FlushSound(s')
  {
  }

  lemma WorkerMoveKeepsFlush(s: System, move: Workers.Action)
    requires Linked(s) && FlushSound(s) && Enabled(s, WorkerMoves(move))
    ensures FlushSound(Apply(s, WorkerMoves(move)))
  {
    if Starts(s, move) {
      assert s.workers.queue[0] in s.workers.queue;
      UnsettledKeepsFlush(s, Apply(s, WorkerMoves(move)), s.owner[s.workers.queue[0]]);
    }
  }

  lemma WorkersKeepFlush(s: System, a: Action)
    requires Linked(s) && FlushSound(s) && Enabled(s, a)
    requires a.WorkerMoves? || a.CallsDriver? || a.FreesBuffer? || a.Decrements?
    ensures FlushSound(Apply(s, a))
  {
    if a.WorkerMoves? {
      WorkerMoveKeepsFlush(s, a.action);
    } else {
      var id := Job(s, a.worker);
      assert s.writes[id].stage == s.step[a.worker];
      UnsettledKeepsFlush(s, Apply(s, a), id);
    }
  }

  lemma StepKeepsFlush(s: System, a: Action)
    requires Linked(s) && CountsSound(s) && FlushSound(s)
    ensures FlushSound(Step(s, a))
  {
    if Enabled(s, a) {
      if a.FlushSeesZero? {
        if InService(s) { ZeroMeansSettled(s, s.host.dataset); }
      } else if a.WorkerMoves? || a.CallsDriver? || a.FreesBuffer? || a.Decrements? {
        WorkersKeepFlush(s, a);
      }
    }
  }

  lemma StepKeepsFailures(s: System, a: Action)
    requires Linked(s) && ContentsSound(s) && FailuresReal(s)
    ensures FailuresReal(Step(s, a))
  {
    if Enabled(s, a) {
      var s' := Step(s, a);
      ThrewStays(s, a);
      forall d | d in s'.failed
        ensures exists id :: 0 <= id < |s'.writes| && s'.writes[id].dataset == d && s'.writes[id].threw
      {
        if d in s.failed {
          var id :| 0 <= id < |s.writes| && s.writes[id].dataset == d && s.writes[id].threw;
          assert s'.writes[id].threw;
        } else {
          assert a.CallsDriver?;
          assert s'.writes[Job(s, a.worker)].threw;
        }
      }
    }
  }

  lemma ThrewStays(s: System, a: Action)
    requires Linked(s) && ContentsSound(s) && Enabled(s, a)
    ensures OutcomesKept(s, Apply(s, a))
  {
    if a.CallsDriver? {
      assert ContentSound(s, Job(s, a.worker));
      assert s.writes[Job(s, a.worker)].stage == s.step[a.worker];
    } else {
      OtherActionsKeepOutcomes(s, a);
    }
  }

  ghost predicate OutcomesKept(s: System, s': System) {
    && |s.writes| <= |s'.writes|
    && forall id :: 0 <= id < |s.writes| ==>
         s'.writes[id].dataset == s.writes[id].dataset && (s.writes[id].threw ==> s'.writes[id].threw)
  }

  lemma OtherActionsKeepOutcomes(s: System, a: Action)
    requires HostLinked(s) && Enabled(s, a) && !a.CallsDriver?
    ensures OutcomesKept(s, Apply(s, a))
  {
    if Bystander(a) {
      BystanderFrame(s, a);
    } else if a.WriteAcquires? {
      var s' := DoAcquire(s, a.dataset);
      assert s'.writes == s.writes || s'.writes[..|s.writes|] == s.writes;
    } else {
      RelabelsKeepOutcomes(s, a);
    }
  }

  lemma RelabelsKeepOutcomes(s: System, a: Action)
    requires Enabled(s, a) && !Bystander(a) && !a.CallsDriver? && !a.WriteAcquires?
    ensures OutcomesKept(s, Apply(s, a))
  {
  }

  /******* Every run *******/

  ghost predicate Inv(s: System) {
    && Staging.Valid(s.pool) && Ownership(s) && Linked(s) && ContentsSound(s)
    && CountsSound(s) && FlushSound(s) && FailuresReal(s)
  }

  lemma InitInv(pool: Staging.Pool, threads: nat, hasWorkers: bool, hostBytes: Bytes)
    requires Staging.Valid(pool)
    ensures Inv(Init(pool, threads, hasWorkers, hostBytes))
  {
    Workers.InitInv(threads);
  }

  lemma StepInv(s: System, a: Action)
    requires Inv(s)
    ensures Inv(Step(s, a))
  {
    StepKeepsOwnership(s, a);
    StepKeepsLinked(s, a);
    StepKeepsContents(s, a);
    StepKeepsCounts(s, a);
    StepKeepsFlush(s, a);
    StepKeepsFailures(s, a);
  }

  lemma StepKeepsService(s: System, a: Action)
    ensures Step(s, a).hasWorkers == s.hasWorkers
  {
  }

  lemma {:induction false} RunInv(s: System, actions: seq<Action>)
    requires Inv(s)
    ensures Inv(Run(s, actions)) && Run(s, actions).hasWorkers == s.hasWorkers
    decreases |actions|
  {
    if actions != [] {
      StepInv(s, actions[0]);
      StepKeepsService(s, actions[0]);
      RunInv(Step(s, actions[0]), actions[1..]);
    }
  }

  /** Snapshot isolation: in every interleaving, what the driver is handed for a write is
      exactly the host's bytes when `write` was called, at most once; and until the
      callback's release the buffer belongs to that write alone and keeps those bytes. */
  lemma SnapshotIsolation(pool: Staging.Pool, threads: nat, hasWorkers: bool, bytes: Bytes, actions: seq<Action>, id: nat)
    requires Staging.Valid(pool)
    requires id < |Run(Init(pool, threads, hasWorkers, bytes), actions).writes|
    ensures var s := Run(Init(pool, threads, hasWorkers, bytes), actions); var w := s.writes[id];
      && (w.delivered == [] || w.delivered == [w.snap])
      && (w.stage in {Called, Freed, Settled} ==> w.delivered == [w.snap])
      && (Holds(w) && w.stage != Staged ==>
            && BytesAt(s, w.buf) == w.snap
            && Staging.Held(s.pool, w.buf)
            && w.buf !in s.others
            && (forall j :: 0 <= j < |s.writes| && j != id && Holds(s.writes[j]) ==> s.writes[j].buf != w.buf))
  {
    var s0 := Init(pool, threads, hasWorkers, bytes);
    InitInv(pool, threads, hasWorkers, bytes);
    RunInv(s0, actions);
    assert ContentSound(Run(s0, actions), id);
  }

  /** When `flush` returns AMIO_OK, every write on the dataset that returned AMIO_OK has
      been executed by the driver without throwing - if and only if the pool has workers
      or there was no write.  Without a worker pool `write` reports success and drops the
      data.  (A run of 2^64 writes could wrap the pending counter.) */
  lemma FlushOkMeansDelivered(pool: Staging.Pool, threads: nat, hasWorkers: bool, bytes: Bytes, actions: seq<Action>, d: nat)
    requires Staging.Valid(pool)
    requires var s := Run(Init(pool, threads, hasWorkers, bytes), actions);
      s.host == Flushed(d, Ok) && |s.writes| < TWO_64
    ensures var s := Run(Init(pool, threads, hasWorkers, bytes), actions);
      (forall id :: 0 <= id < |s.writes| && s.writes[id].dataset == d ==>
         s.writes[id].delivered == [s.writes[id].snap] && !s.writes[id].threw)
      <==> hasWorkers || forall id :: 0 <= id < |s.writes| ==> s.writes[id].dataset != d
  {
    var s0 := Init(pool, threads, hasWorkers, bytes);
    InitInv(pool, threads, hasWorkers, bytes);
    RunInv(s0, actions);
    var s := Run(s0, actions);
    forall id | 0 <= id < |s.writes| && s.writes[id].dataset == d
      ensures if hasWorkers then s.writes[id].delivered == [s.writes[id].snap] && !s.writes[id].threw
              else s.writes[id].delivered == []
    {
      assert ContentSound(s, id);
      assert CountSound(s, id);
    }
  }

  /** `flush` reports a failure exactly when some write on the dataset threw, and a write
      that the worker pool refused - `write` returns AMIO_OK for it all the same - keeps
      `flush` from ever reporting success. */
  lemma FlushVerdict(pool: Staging.Pool, threads: nat, bytes: Bytes, actions: seq<Action>, d: nat, status: Status)
    requires Staging.Valid(pool)
    requires var s := Run(Init(pool, threads, true, bytes), actions);
      s.host == Flushed(d, status) && status != Timeout && |s.writes| < TWO_64
    ensures var s := Run(Init(pool, threads, true, bytes), actions);
      && (status == BackendFailure <==> exists id :: 0 <= id < |s.writes| && s.writes[id].dataset == d && s.writes[id].threw)
      && (status == Ok || status == BackendFailure)
      && (forall id :: 0 <= id < |s.writes| && s.writes[id].dataset == d ==> s.writes[id].stage != Refused)
  {
    var s0 := Init(pool, threads, true, bytes);
    InitInv(pool, threads, true, bytes);
    RunInv(s0, actions);
    var s := Run(s0, actions);
    forall id | 0 <= id < |s.writes| && s.writes[id].dataset == d && s.writes[id].threw ensures d in s.failed {
      assert ContentSound(s, id);
    }
  }

  lemma RunTwo(s: System, a: Action, b: Action, rest: seq<Action>)
    ensures Run(s, [a, b] + rest) == Run(Step(Step(s, a), b), rest)
  {
    assert ([a, b] + rest)[1..] == [b] + rest;
    assert ([b] + rest)[1..] == rest;
  }

  /** The failing family, made concrete: without a worker pool one write is staged,
      dropped and then vouched for by `flush`. */
  lemma WithoutWorkersDataIsDropped(pool: Staging.Pool, bytes: Bytes, d: nat)
    requires Staging.Valid(pool) && Staging.Room(pool) > 0
    ensures var s := Run(Init(pool, 0, false, bytes),
                         [WriteAcquires(d), WriteCopies] + ([WriteStubs, FlushBegins(d)] + [FlushSeesZero, FlushReports]));
      s.host == Flushed(d, Ok) && |s.writes| == 1 && s.writes[0].dataset == d && s.writes[0].delivered == []
  {
    var s0 := Init(pool, 0, false, bytes);
    Staging.TryAcquireCorrect(pool, |bytes|);
    var s1 := Step(s0, WriteAcquires(d));
    assert s1.host == Writing(0, false) && |s1.writes| == 1 && s1.writes[0].delivered == [] && s1.writes[0].dataset == d;
    var s2 := Step(s1, WriteCopies);
    assert s2.host == Writing(0, true) && s2.pool == s1.pool && s2.writes == s1.writes;
    RunTwo(s0, WriteAcquires(d), WriteCopies, [WriteStubs, FlushBegins(d)] + [FlushSeesZero, FlushReports]);
    FlushAfterStub(s2, d);
  }

  lemma FlushAfterStub(s: System, d: nat)
    requires s.host == Writing(0, true) && |s.writes| == 1 && !s.hasWorkers && s.pending == map[] && s.failed == {}
    requires Staging.InRange(s.pool) && Staging.Referenced(s.pool, s.writes[0].buf)
    ensures var r := Run(s, [WriteStubs, FlushBegins(d)] + [FlushSeesZero, FlushReports]);
      r.host == Flushed(d, Ok) && |r.writes| == 1 && r.writes[0] == s.writes[0].(stage := Stubbed, completed := true)
  {
    RunTwo(s, WriteStubs, FlushBegins(d), [FlushSeesZero, FlushReports]);
    StubLeavesNothingPending(s, d);
    FlushOfNothing(Step(Step(s, WriteStubs), FlushBegins(d)), d);
  }

  lemma StubLeavesNothingPending(s: System, d: nat)
    requires s.host == Writing(0, true) && |s.writes| == 1 && !s.hasWorkers && s.pending == map[] && s.failed == {}
    requires Staging.InRange(s.pool) && Staging.Referenced(s.pool, s.writes[0].buf)
    ensures var r := Step(Step(s, WriteStubs), FlushBegins(d));
      && r.host == Polling(d) && r.pending == map[] && r.failed == {}
      && |r.writes| == 1 && r.writes[0] == s.writes[0].(stage := Stubbed, completed := true)
  {
  }

  lemma SeesZeroStep(s: System, d: nat)
    requires s.host == Polling(d) && s.pending == map[]
    ensures Step(s, FlushSeesZero) == s.(host := Checking(d))
  {
  }

  lemma ReportsStep(s: System, d: nat)
    requires s.host == Checking(d) && s.failed == {}
    ensures Step(s, FlushReports) == s.(host := Flushed(d, Ok))
  {
  }

  lemma FlushOfNothing(s: System, d: nat)
    requires s.host == Polling(d) && s.pending == map[] && s.failed == {}
    ensures Run(s, [FlushSeesZero, FlushReports]) == s.(host := Flushed(d, Ok))
  {
    SeesZeroStep(s, d);
    ReportsStep(s.(host := Checking(d)), d);
    assert [FlushSeesZero, FlushReports] == [FlushSeesZero, FlushReports] + [];
    RunTwo(s, FlushSeesZero, FlushReports, []);
  }
}
