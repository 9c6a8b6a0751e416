/**
 `amio_wait`: the host polls the completion flag of one write while the workers go on.
 The callback sets that flag only after the driver has returned, and never for a write that
 threw, so a failure is never reported: such a wait runs into its deadline.
 */
module Waits {
  import opened Common
  import opened WritePath
  import opened Refusals
  import Staging
  import Workers

  /** One look at the flags. */
  function Poll(s: System, id: nat): Option<Status> {
    if id < |s.writes| && s.writes[id].completed
    then Some(if s.writes[id].threw then BackendFailure else Ok)
    else None
  }

  /** `pauses` lists what happens before each further look; after the last one the deadline
      has passed. */
  function Wait(s: System, id: nat, pauses: seq<seq<Action>>): (System, Status)
    decreases |pauses|
  {
    var seen := Poll(s, id);
    if seen.Some? then (s, seen.value)
    else if pauses == [] then (s, Timeout)
    else Wait(Run(s, pauses[0]), id, pauses[1..])
  }

  /** The driver was handed the snapshot and did not throw. */
  predicate Delivered(w: Write) {
    w.delivered == [w.snap] && !w.threw
  }

  /** Whether write `id` exists and was executed without throwing. */
  predicate Done(s: System, id: nat) {
    id < |s.writes| && Delivered(s.writes[id])
  }

  lemma PollMeans(s: System, id: nat)
    requires ContentsSound(s) && CountsSound(s)
    ensures Poll(s, id) == None || Poll(s, id) == Some(Ok)
    ensures s.hasWorkers ==> (Poll(s, id) == Some(Ok) <==> Done(s, id))
    ensures !s.hasWorkers ==> !Done(s, id)
  {
    if id < |s.writes| {
      assert ContentSound(s, id) && CountSound(s, id);
    }
  }

  lemma {:induction false} WaitMeans(s: System, id: nat, pauses: seq<seq<Action>>)
    requires Inv(s)
    ensures var (e, status) := Wait(s, id, pauses);
      && Inv(e) && e.hasWorkers == s.hasWorkers
      && (status == Ok || status == Timeout) && (status == Ok <==> Poll(e, id) == Some(Ok))
    decreases |pauses|
  {
    PollMeans(s, id);
    if Poll(s, id).None? && pauses != [] {
      RunInv(s, pauses[0]);
      WaitMeans(Run(s, pauses[0]), id, pauses[1..]);
    }
  }

  /** In every run `amio_wait` returns AMIO_OK or a timeout, nothing else.  When it returns
      AMIO_OK, the write has been executed without throwing if and only if the pool has
      workers; and with workers a timeout means that it had not been by then. */
  lemma WaitOkMeansDelivered(pool: Staging.Pool, threads: nat, hasWorkers: bool, bytes: Bytes, actions: seq<Action>,
                             id: nat, pauses: seq<seq<Action>>)
    requires Staging.Valid(pool)
    ensures var (e, status) := Wait(Run(Init(pool, threads, hasWorkers, bytes), actions), id, pauses);
      && (status == Ok || status == Timeout)
      && (status == Ok ==> (Done(e, id) <==> hasWorkers))
      && (hasWorkers ==> (status == Ok <==> Done(e, id)))
  {
    var s0 := Init(pool, threads, hasWorkers, bytes);
    InitInv(pool, threads, hasWorkers, bytes);
    RunInv(s0, actions);
    WaitMeans(Run(s0, actions), id, pauses);
    PollMeans(Wait(Run(s0, actions), id, pauses).0, id);
  }

  /******* Writes that never complete *******/

  /** The pool refused the write, or the driver threw on it. */
  predicate Doomed(s: System, id: nat) {
    id < |s.writes| && (s.writes[id].stage == Refused || s.writes[id].threw)
  }

  lemma DoomedStays(s: System, a: Action, id: nat)
    requires Inv(s) && Doomed(s, id)
    ensures Doomed(Step(s, a), id)
  {
    if Enabled(s, a) {
      StepRefuses(s, a);
      ThrewStays(s, a);
    }
  }

  lemma {:induction false} DoomedForever(s: System, actions: seq<Action>, id: nat)
    requires Inv(s) && Doomed(s, id)
    ensures Doomed(Run(s, actions), id)
    decreases |actions|
  {
    if actions != [] {
      StepInv(s, actions[0]);
      DoomedStays(s, actions[0], id);
      DoomedForever(Step(s, actions[0]), actions[1..], id);
    }
  }

  lemma DoomedNotCompleted(s: System, id: nat)
    requires ContentsSound(s) && Doomed(s, id)
    ensures Poll(s, id) == None
  {
    assert ContentSound(s, id);
  }

  lemma {:induction false} DoomedTimesOut(s: System, id: nat, pauses: seq<seq<Action>>)
    requires Inv(s) && Doomed(s, id)
    ensures Wait(s, id, pauses).1 == Timeout
    decreases |pauses|
  {
    DoomedNotCompleted(s, id);
    if pauses != [] {
      RunInv(s, pauses[0]);
      DoomedForever(s, pauses[0], id);
      DoomedTimesOut(Run(s, pauses[0]), id, pauses[1..]);
    }
  }

  /** A write that was refused or whose driver call threw is never reported: however long
      the host waits, the answer is a timeout. */
  lemma FailureIsNeverReported(pool: Staging.Pool, threads: nat, hasWorkers: bool, bytes: Bytes, actions: seq<Action>,
                               id: nat, pauses: seq<seq<Action>>)
    requires Staging.Valid(pool) && Doomed(Run(Init(pool, threads, hasWorkers, bytes), actions), id)
    ensures Wait(Run(Init(pool, threads, hasWorkers, bytes), actions), id, pauses).1 == Timeout
  {
    var s0 := Init(pool, threads, hasWorkers, bytes);
    InitInv(pool, threads, hasWorkers, bytes);
    RunInv(s0, actions);
    DoomedTimesOut(Run(s0, actions), id, pauses);
  }

  /******* A run in which the driver throws *******/

  /** One write is queued, and worker 0 is idle. */
  ghost predicate OneQueued(s: System, k: Workers.Key) {
    && |s.writes| == 1 && s.writes[0].stage == Submitted && s.writes[0].dataset == k.dataset
    && s.workers.queue == [Workers.Task(k, 0)] && Workers.Exec(s.workers, k) == 0
    && Workers.Task(k, 0) in s.owner && s.owner[Workers.Task(k, 0)] == 0
    && Workers.At(s.workers, 0, Workers.Idle)
  }

  lemma SubmitsOne(s: System, variable: nat)
    requires s.hasWorkers && s.host == Writing(0, true) && |s.writes| == 1 && !s.workers.shutdown
    requires s.workers.queue == [] && s.workers.orders == map[] && Workers.At(s.workers, 0, Workers.Idle)
    ensures OneQueued(Step(Step(s, WriteSubmits(variable)), WriteCounts), Workers.Key(s.writes[0].dataset, variable))
  {
  }

  lemma CallThrows(s: System, k: Workers.Key)
    requires OneQueued(s, k)
    ensures Doomed(Step(Step(s, WorkerMoves(Workers.TryExecute(0, 0))), CallsDriver(0, false)), 0)
  {
    var m := Step(s, WorkerMoves(Workers.TryExecute(0, 0)));
    StartsOne(s, k);
    assert m.writes[0].stage == Running && BusyAt(m, 0, Running) && Job(m, 0) == 0;
  }

  lemma StartsOne(s: System, k: Workers.Key)
    requires OneQueued(s, k)
    ensures var m := Step(s, WorkerMoves(Workers.TryExecute(0, 0)));
      && |m.writes| == 1 && m.writes[0].stage == Running && m.owner == s.owner
      && m.step == s.step[0 := Running] && Workers.At(m.workers, 0, Workers.Executing(Workers.Task(k, 0)))
  {
    assert Starts(s, Workers.TryExecute(0, 0));
  }

  /** The host writes once; worker 0 takes the task and the driver throws. */
  function WriteThatThrows(d: nat, variable: nat): seq<Action> {
    [WriteAcquires(d), WriteCopies] + ([WriteSubmits(variable), WriteCounts]
      + [WorkerMoves(Workers.TryExecute(0, 0)), CallsDriver(0, false)])
  }

  /** Waiting for that write times out, however long the wait. */
  lemma ThrownWriteTimesOut(pool: Staging.Pool, threads: nat, bytes: Bytes, d: nat, variable: nat, pauses: seq<seq<Action>>)
    requires Staging.Valid(pool) && Staging.Room(pool) > 0 && threads >= 1
    ensures var s := Run(Init(pool, threads, true, bytes), WriteThatThrows(d, variable));
      Doomed(s, 0) && Wait(s, 0, pauses).1 == Timeout
  {
    var s0 := Init(pool, threads, true, bytes);
    Staging.TryAcquireCorrect(pool, |bytes|);
    AcquireStep(s0, d);
    var rest := [WriteSubmits(variable), WriteCounts] + [WorkerMoves(Workers.TryExecute(0, 0)), CallsDriver(0, false)];
    RunTwo(s0, WriteAcquires(d), WriteCopies, rest);
    ThrowsFrom(Step(Step(s0, WriteAcquires(d)), WriteCopies), variable);
    FailureIsNeverReported(pool, threads, true, bytes, WriteThatThrows(d, variable), 0, pauses);
  }

  lemma ThrowsFrom(s: System, variable: nat)
    requires s.hasWorkers && s.host == Writing(0, true) && |s.writes| == 1 && !s.workers.shutdown
    requires s.workers.queue == [] && s.workers.orders == map[] && Workers.At(s.workers, 0, Workers.Idle)
    ensures Doomed(Run(s, [WriteSubmits(variable), WriteCounts]
                          + [WorkerMoves(Workers.TryExecute(0, 0)), CallsDriver(0, false)]), 0)
  {
    var last := [WorkerMoves(Workers.TryExecute(0, 0)), CallsDriver(0, false)];
    RunTwo(s, WriteSubmits(variable), WriteCounts, last);
    SubmitsOne(s, variable);
    var m := Step(Step(s, WriteSubmits(variable)), WriteCounts);
    RunTwice(m, WorkerMoves(Workers.TryExecute(0, 0)), CallsDriver(0, false));
    CallThrows(m, Workers.Key(s.writes[0].dataset, variable));
  }
}
