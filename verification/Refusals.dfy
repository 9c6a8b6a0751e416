/**
 Writes that the worker pool refuses.  `write` does not look at the refusal: it reports
 success and counts the write as pending.  The pending counter therefore returns to zero,
 and `flush` can finish, exactly when no write was submitted to a pool that refuses.
 */
module Refusals {
  import opened Common
  import opened WritePath
  import Staging
  import Workers

  /******* The pending counter outside `write` *******/

  /** Writes on dataset `d` that no callback has settled. */
  function Unsettled(ws: seq<Write>, d: nat): (n: nat)
    ensures n <= |ws|
  {
    if ws == [] then 0
    else
      var last := ws[|ws| - 1];
      Unsettled(ws[..|ws| - 1], d) + if last.dataset == d && last.stage != Settled then 1 else 0
  }

  lemma {:induction false} BalanceIsUnsettled(ws: seq<Write>, d: nat)
    requires forall id :: 0 <= id < |ws| ==> ws[id].counted && ws[id].debits == if ws[id].stage == Settled then 1 else 0
    ensures Balance(ws, d) == Unsettled(ws, d)
  {
    if ws != [] {
      var n := |ws| - 1;
      forall id | 0 <= id < n ensures ws[..n][id] == ws[id] {}
      BalanceIsUnsettled(ws[..n], d);
    }
  }

  predicate OutsideWrite(s: System) {
    !s.host.Writing? && !s.host.Counting?
  }

  /** Between the host's calls the pending counter of a dataset is the number of its writes
      that have not settled: still queued or running, or refused. */
  lemma PendingIsUnsettled(s: System, d: nat)
    requires Linked(s) && CountsSound(s) && InService(s) && OutsideWrite(s)
    ensures PendingOf(s, d) == Unsettled(s.writes, d)
  {
    forall id | 0 <= id < |s.writes|
      ensures s.writes[id].counted && s.writes[id].debits == if s.writes[id].stage == Settled then 1 else 0
    {
      assert CountSound(s, id);
    }
    BalanceIsUnsettled(s.writes, d);
    assert PendingOf(s, d) == Balance(s.writes, d) % TWO_64;
  }

  lemma {:induction false} UnsettledZero(ws: seq<Write>, d: nat)
    ensures Unsettled(ws, d) == 0 <==> forall id :: 0 <= id < |ws| && ws[id].dataset == d ==> ws[id].stage == Settled
  {
    if ws != [] {
      var n := |ws| - 1;
      UnsettledZero(ws[..n], d);
      forall id | 0 <= id < n ensures ws[..n][id] == ws[id] {}
    }
  }

  /******* Refused writes over a run *******/

  ghost predicate HasRefused(s: System, d: nat) {
    exists id :: 0 <= id < |s.writes| && s.writes[id].dataset == d && s.writes[id].stage == Refused
  }

  /** No action changes which writes are refused, except the refusal itself. */
  ghost predicate RefusedOnly(s: System, s': System, id: int) {
    && |s.writes| <= |s'.writes|
    && (forall j :: 0 <= j < |s.writes| ==>
          s'.writes[j].dataset == s.writes[j].dataset
          && (s'.writes[j].stage == Refused <==> s.writes[j].stage == Refused || j == id))
    && (forall j :: |s.writes| <= j < |s'.writes| ==> s'.writes[j].stage != Refused)
  }

  lemma WorkersKeepRefused(s: System, a: Action)
    requires Linked(s) && Enabled(s, a) && (a.CallsDriver? || a.FreesBuffer? || a.Decrements? || a.Returns?)
    ensures RefusedOnly(s, Apply(s, a), -1)
  {
    match a {
      case CallsDriver(v, ok) => CallKeepsRefused(s, v, ok);
      case FreesBuffer(v) => FreeKeepsRefused(s, v);
      case Decrements(v) => DecrementKeepsRefused(s, v);
      case Returns(_) =>
    }
  }

  lemma CallKeepsRefused(s: System, v: nat, ok: bool)
    requires ThreadsLinked(s) && BusyAt(s, v, Running)
    ensures RefusedOnly(s, DoCall(s, v, ok), -1)
  {
    assert s.writes[Job(s, v)].stage == s.step[v];
  }

  lemma FreeKeepsRefused(s: System, v: nat)
    requires ThreadsLinked(s) && Enabled(s, FreesBuffer(v))
    ensures RefusedOnly(s, DoFree(s, v), -1)
  {
    assert s.writes[Job(s, v)].stage == s.step[v];
  }

  lemma DecrementKeepsRefused(s: System, v: nat)
    requires ThreadsLinked(s) && BusyAt(s, v, Freed)
    ensures RefusedOnly(s, DoDecrement(s, v), -1)
  {
    assert s.writes[Job(s, v)].stage == s.step[v];
  }

  lemma WorkerMovesKeepRefused(s: System, move: Workers.Action)
    requires Linked(s) && Enabled(s, WorkerMoves(move))
    ensures RefusedOnly(s, DoWorkerMove(s, move), -1)
  {
    if Starts(s, move) {
      assert s.workers.queue[0] in s.workers.queue;
    }
  }

  lemma WriteKeepsRefused(s: System, a: Action)
    requires HostLinked(s) && Enabled(s, a) && (a.WriteAcquires? || a.WriteSubmits? || a.WriteCounts? || a.WriteStubs?)
    ensures RefusedOnly(s, Apply(s, a), -1)
  {
  }

  lemma RefusalMarksOne(s: System)
    requires HostLinked(s) && Enabled(s, WriteIsRefused)
    ensures RefusedOnly(s, Apply(s, WriteIsRefused), s.host.id)
  {
  }

  lemma StepRefuses(s: System, a: Action)
    requires Linked(s) && Enabled(s, a)
    ensures RefusedOnly(s, Apply(s, a), if a.WriteIsRefused? then s.host.id else -1)
  {
    if Bystander(a) {
      BystanderFrame(s, a);
    } else {
      match a
      case WorkerMoves(move) => WorkerMovesKeepRefused(s, move);
      case Returns(_) => WorkersKeepRefused(s, a);
      case CallsDriver(_, _) => WorkersKeepRefused(s, a);
      case FreesBuffer(_) => WorkersKeepRefused(s, a);
      case Decrements(_) => WorkersKeepRefused(s, a);
      case WriteIsRefused => RefusalMarksOne(s);
      case WriteAcquires(_) => WriteKeepsRefused(s, a);
      case WriteSubmits(_) => WriteKeepsRefused(s, a);
      case WriteCounts => WriteKeepsRefused(s, a);
      case WriteStubs => WriteKeepsRefused(s, a);
    }
  }

  /** At this step the host submits a write on `d` while the pool refuses. */
  predicate SubmitsInVain(s: System, a: Action, d: nat) {
    a.WriteIsRefused? && AtSubmission(s) && Refuses(s) && s.writes[s.host.id].dataset == d
  }

  /** Somewhere in the run the host submits a write on `d` while the pool refuses. */
  ghost predicate EverInVain(s: System, actions: seq<Action>, d: nat)
    decreases |actions|
  {
    actions != [] && (SubmitsInVain(s, actions[0], d) || EverInVain(Step(s, actions[0]), actions[1..], d))
  }

  lemma StepHasRefused(s: System, a: Action, d: nat)
    requires Linked(s)
    ensures HasRefused(Step(s, a), d) <==> HasRefused(s, d) || SubmitsInVain(s, a, d)
  {
    if Enabled(s, a) {
      var s' := Apply(s, a);
      StepRefuses(s, a);
      if HasRefused(s, d) {
        var id :| 0 <= id < |s.writes| && s.writes[id].dataset == d && s.writes[id].stage == Refused;
        assert s'.writes[id].stage == Refused;
      }
      if SubmitsInVain(s, a, d) {
        assert s'.writes[s.host.id].stage == Refused;
      }
      if HasRefused(s', d) {
        var id :| 0 <= id < |s'.writes| && s'.writes[id].dataset == d && s'.writes[id].stage == Refused;
        assert id < |s.writes|;
        assert s.writes[id].stage == Refused || (a.WriteIsRefused? && id == s.host.id);
      }
    }
  }

  lemma {:induction false} RunHasRefused(s: System, actions: seq<Action>, d: nat)
    requires Inv(s)
    ensures HasRefused(Run(s, actions), d) <==> HasRefused(s, d) || EverInVain(s, actions, d)
    decreases |actions|
  {
    if actions != [] {
      StepInv(s, actions[0]);
      StepHasRefused(s, actions[0], d);
      RunHasRefused(Step(s, actions[0]), actions[1..], d);
    }
  }

  /** The worker pool as the coordinator configures it: no watermarks. */
  const NO_WATERMARKS := Workers.Backpressure(false, 0, QUEUE_CAPACITY)

  /** The host's submission is the pool's own: it is refused exactly when the flag is set or
      1024 tasks are queued, and otherwise it queues the task under its key's next number. */
  lemma SubmissionIsAdmission(s: System, variable: nat, meanwhile: seq<Workers.Action>)
    requires AtSubmission(s)
    ensures var k := Workers.Key(s.writes[s.host.id].dataset, variable);
      var (m, num) := Workers.Admission(s.workers, k, s.workers.shutdown, NO_WATERMARKS, meanwhile);
      && (Refuses(s) <==> num.None?)
      && (num.None? <==> s.workers.shutdown || |s.workers.queue| >= 1024)
      && (num.Some? ==> Enabled(s, WriteSubmits(variable)) && Step(s, WriteSubmits(variable)).workers == m)
      && (num.None? ==> Enabled(s, WriteIsRefused) && Step(s, WriteIsRefused).workers == s.workers == m)
  {
  }

  lemma TriesKeepBound(w: Workers.State, v: nat, seen: nat)
    requires Workers.Enabled(w, Workers.TryExecute(v, seen))
    ensures |Workers.DoTryExecute(w, v, seen).queue| <= |w.queue|
  {
  }

  lemma PoolKeepsBound(w: Workers.State, move: Workers.Action)
    requires !move.Submit? && Workers.Enabled(w, move)
    ensures |Workers.Apply(w, move).queue| <= |w.queue|
  {
    match move
    case TryExecute(v, seen) => TriesKeepBound(w, v, seen);
    case _ =>
  }

  lemma MovesKeepBound(s: System, move: Workers.Action)
    requires !move.Submit? && Workers.Enabled(s.workers, move)
    ensures |DoWorkerMove(s, move).workers.queue| <= |s.workers.queue|
  {
    PoolKeepsBound(s.workers, move);
    assert DoWorkerMove(s, move).workers == Workers.Apply(s.workers, move);
  }

  lemma StepKeepsBound(s: System, a: Action)
    requires |s.workers.queue| <= 1024
    ensures |Step(s, a).workers.queue| <= 1024
  {
    if Enabled(s, a) {
      match a
      case WorkerMoves(move) => MovesKeepBound(s, move);
      case CallsDriver(_, _) =>
      case FreesBuffer(_) =>
      case Decrements(_) =>
      case WriteStubs =>
      case _ =>
    }
  }

  lemma {:induction false} RunKeepsBound(s: System, actions: seq<Action>)
    requires |s.workers.queue| <= 1024
    ensures |Run(s, actions).workers.queue| <= 1024
    decreases |actions|
  {
    if actions != [] {
      StepKeepsBound(s, actions[0]);
      RunKeepsBound(Step(s, actions[0]), actions[1..]);
    }
  }

  /** However many writes the host submits and however slow the driver is, never more than
      1024 tasks are queued. */
  lemma QueueIsBounded(pool: Staging.Pool, threads: nat, hasWorkers: bool, bytes: Bytes, actions: seq<Action>)
    ensures |Run(Init(pool, threads, hasWorkers, bytes), actions).workers.queue| <= 1024
  {
    RunKeepsBound(Init(pool, threads, hasWorkers, bytes), actions);
  }

  /******* When flush can finish *******/

  /** Between the host's calls the pending counter is the number of unsettled writes.  Once
      the workers are done with a dataset - each of its writes has settled or was refused -
      the counter is zero, so that `flush` finishes, if and only if no write on the dataset
      was submitted while the queue was full or the pool shut down. */
  lemma FlushFinishesIff(pool: Staging.Pool, threads: nat, bytes: Bytes, actions: seq<Action>, d: nat)
    requires Staging.Valid(pool)
    requires var s := Run(Init(pool, threads, true, bytes), actions); OutsideWrite(s) && |s.writes| < TWO_64
    ensures var s := Run(Init(pool, threads, true, bytes), actions);
      && PendingOf(s, d) == Unsettled(s.writes, d)
      && ((forall id :: 0 <= id < |s.writes| && s.writes[id].dataset == d ==> s.writes[id].stage in {Settled, Refused}) ==>
            (PendingOf(s, d) == 0 <==> !EverInVain(Init(pool, threads, true, bytes), actions, d)))
  {
    var s0 := Init(pool, threads, true, bytes);
    InitInv(pool, threads, true, bytes);
    RunInv(s0, actions);
    var s := Run(s0, actions);
    PendingIsUnsettled(s, d);
    UnsettledZero(s.writes, d);
    RunHasRefused(s0, actions, d);
    assert !HasRefused(s0, d);
  }

  lemma {:induction false} RunSplit(s: System, first: seq<Action>, second: seq<Action>)
    ensures Run(s, first + second) == Run(Run(s, first), second)
    decreases |first|
  {
    if first == [] {
      assert first + second == second;
    } else {
      assert (first + second)[1..] == first[1..] + second;
      RunSplit(Step(s, first[0]), first[1..], second);
    }
  }

  /** And one refusal is final: whatever happens later, `flush` on that dataset only ever
      times out. */
  lemma RefusalIsFinal(pool: Staging.Pool, threads: nat, bytes: Bytes, before: seq<Action>, after: seq<Action>, d: nat)
    requires Staging.Valid(pool) && EverInVain(Init(pool, threads, true, bytes), before, d)
    requires |Run(Init(pool, threads, true, bytes), before + after).writes| < TWO_64
    ensures var s := Run(Init(pool, threads, true, bytes), before + after);
      s.host.Flushed? && s.host.dataset == d ==> s.host.status == Timeout
  {
    var s0 := Init(pool, threads, true, bytes);
    InitInv(pool, threads, true, bytes);
    RunInv(s0, before);
    RunHasRefused(s0, before, d);
    RunSplit(s0, before, after);
    RunHasRefused(Run(s0, before), after, d);
    RunInv(Run(s0, before), after);
    var s := Run(s0, before + after);
    assert Inv(s) && InService(s);
    assert HasRefused(s, d);
    assert s.host.Flushed? && s.host.status != Timeout ==> AllSettled(s, s.host.dataset);
  }

  /******* A run with a full queue *******/

  /** One write on dataset `d`, accepted. */
  function OneWrite(d: nat, variable: nat): seq<Action> {
    [WriteAcquires(d), WriteCopies] + [WriteSubmits(variable), WriteCounts]
  }

  function Writes(d: nat, variable: nat, n: nat): seq<Action> {
    if n == 0 then [] else Writes(d, variable, n - 1) + OneWrite(d, variable)
  }

  /** `n` writes are queued, no worker has moved, and the pool has room. */
  ghost predicate Queued(s: System, n: nat, room: int) {
    && s.hasWorkers && s.host.Away? && !s.workers.shutdown && |s.workers.queue| == n == |s.writes|
    && Staging.Valid(s.pool) && Staging.Room(s.pool) >= room
  }

  /** A write is staged and the host is about to submit it. */
  ghost predicate AboutToSubmit(s: System, n: nat, d: nat, room: int) {
    && s.hasWorkers && s.host == Writing(n, true) && !s.workers.shutdown && |s.workers.queue| == n && |s.writes| == n + 1
    && s.writes[n].dataset == d && Staging.Valid(s.pool) && Staging.Room(s.pool) >= room
  }

  lemma StagingStep(s: System, n: nat, d: nat, room: nat)
    requires Queued(s, n, room + 1)
    ensures AboutToSubmit(Step(Step(s, WriteAcquires(d)), WriteCopies), n, d, room)
  {
    Staging.TryAcquireCorrect(s.pool, |s.hostBytes|);
    AcquireStep(s, d);
  }

  lemma AcquireStep(s: System, d: nat)
    requires s.host.Away? && Staging.InRange(s.pool) && Staging.TryAcquire(s.pool, |s.hostBytes|).1.Some?
    requires var (p, r) := Staging.TryAcquire(s.pool, |s.hostBytes|); Staging.Block(p, r.value).Some?
    ensures var (p, r) := Staging.TryAcquire(s.pool, |s.hostBytes|); var m := Step(Step(s, WriteAcquires(d)), WriteCopies);
      && m.pool == p && m.workers == s.workers && m.hasWorkers == s.hasWorkers
      && m.writes == s.writes + [NewWrite(s, d, r.value)] && m.host == Writing(|s.writes|, true)
  {
  }

  lemma SubmissionStep(s: System, n: nat, d: nat, variable: nat, room: int)
    requires AboutToSubmit(s, n, d, room) && n < QUEUE_CAPACITY
    ensures Queued(Step(Step(s, WriteSubmits(variable)), WriteCounts), n + 1, room)
  {
  }

  lemma RefusalStep(s: System, d: nat, room: int)
    requires AboutToSubmit(s, QUEUE_CAPACITY, d, room)
    ensures SubmitsInVain(s, WriteIsRefused, d)
    ensures Step(Step(s, WriteIsRefused), WriteCounts).host.Away?
  {
  }

  lemma RunTwice(s: System, a: Action, b: Action)
    ensures Run(s, [a, b]) == Step(Step(s, a), b)
  {
    assert [a, b] == [a, b] + [];
    RunTwo(s, a, b, []);
  }

  lemma {:induction false} WritesQueue(s: System, d: nat, variable: nat, n: nat, room: nat)
    requires Queued(s, 0, room + n) && n <= QUEUE_CAPACITY
    ensures Queued(Run(s, Writes(d, variable, n)), n, room)
  {
    if n > 0 {
      WritesQueue(s, d, variable, n - 1, room + 1);
      var m := Run(s, Writes(d, variable, n - 1));
      RunSplit(s, Writes(d, variable, n - 1), OneWrite(d, variable));
      RunSplit(m, [WriteAcquires(d), WriteCopies], [WriteSubmits(variable), WriteCounts]);
      RunTwice(m, WriteAcquires(d), WriteCopies);
      StagingStep(m, n - 1, d, room);
      var k := Run(m, [WriteAcquires(d), WriteCopies]);
      RunTwice(k, WriteSubmits(variable), WriteCounts);
      SubmissionStep(k, n - 1, d, variable, room);
    }
  }

  /** As many writes as the queue takes, and one more. */
  function Overfill(d: nat, variable: nat): seq<Action> {
    Writes(d, variable, QUEUE_CAPACITY) + ([WriteAcquires(d), WriteCopies] + [WriteIsRefused, WriteCounts])
  }

  lemma {:induction false} EverInVainLater(s: System, first: seq<Action>, second: seq<Action>, d: nat)
    requires EverInVain(Run(s, first), second, d)
    ensures EverInVain(s, first + second, d)
    decreases |first|
  {
    if first == [] {
      assert first + second == second;
    } else {
      assert (first + second)[1..] == first[1..] + second;
      EverInVainLater(Step(s, first[0]), first[1..], second, d);
    }
  }

  lemma FullQueueRefuses(s: System, d: nat)
    requires Queued(s, QUEUE_CAPACITY, 1)
    ensures var tail := [WriteAcquires(d), WriteCopies] + [WriteIsRefused, WriteCounts];
      EverInVain(s, tail, d) && OutsideWrite(Run(s, tail))
  {
    StagingStep(s, QUEUE_CAPACITY, d, 0);
    RunTwice(s, WriteAcquires(d), WriteCopies);
    var m := Run(s, [WriteAcquires(d), WriteCopies]);
    RefusalStep(m, d, 0);
    RunTwice(m, WriteIsRefused, WriteCounts);
    RunSplit(s, [WriteAcquires(d), WriteCopies], [WriteIsRefused, WriteCounts]);
    EverInVainLater(s, [WriteAcquires(d), WriteCopies], [WriteIsRefused, WriteCounts], d);
  }

  /** A run that gets there: the host writes faster than any worker moves, the write after
      the 1024th is refused, and from then on `flush` can only time out. */
  lemma FullQueueLosesAWrite(pool: Staging.Pool, threads: nat, bytes: Bytes, d: nat, variable: nat, after: seq<Action>)
    requires Staging.Valid(pool) && Staging.Room(pool) > QUEUE_CAPACITY
    requires |Run(Init(pool, threads, true, bytes), Overfill(d, variable) + after).writes| < TWO_64
    ensures EverInVain(Init(pool, threads, true, bytes), Overfill(d, variable), d)
    ensures HasRefused(Run(Init(pool, threads, true, bytes), Overfill(d, variable)), d)
    ensures var s := Run(Init(pool, threads, true, bytes), Overfill(d, variable) + after);
      s.host.Flushed? && s.host.dataset == d ==> s.host.status == Timeout
  {
    var s0 := Init(pool, threads, true, bytes);
    InitInv(pool, threads, true, bytes);
    WritesQueue(s0, d, variable, QUEUE_CAPACITY, 1);
    var tail := [WriteAcquires(d), WriteCopies] + [WriteIsRefused, WriteCounts];
    FullQueueRefuses(Run(s0, Writes(d, variable, QUEUE_CAPACITY)), d);
    EverInVainLater(s0, Writes(d, variable, QUEUE_CAPACITY), tail, d);
    RunHasRefused(s0, Overfill(d, variable), d);
    RefusalIsFinal(pool, threads, bytes, Overfill(d, variable), after, d);
  }

  /** The shortest such run: one write to a pool that has been shut down.  It ends with the
      refused write, a pending counter of 1 and a `flush` that cannot see zero. */
  function WriteAfterShutdown(d: nat): seq<Action> {
    [WorkerMoves(Workers.SetShutdown)] + ([WriteAcquires(d), WriteCopies] + ([WriteIsRefused, WriteCounts] + [FlushBegins(d)]))
  }

  lemma RefusedCount(s: System, d: nat)
    requires s.hasWorkers && s.host == Writing(0, true) && s.workers.shutdown && |s.writes| == 1 && s.writes[0].dataset == d
    requires s.pending == map[]
    ensures var r := Step(Step(Step(s, WriteIsRefused), WriteCounts), FlushBegins(d));
      && |r.writes| == 1 && r.writes[0].stage == Refused && r.writes[0].dataset == d
      && PendingOf(r, d) == 1 && r.host == Polling(d) && !Enabled(r, FlushSeesZero)
  {
  }

  /** The state in which that run ends. */
  ghost predicate OneRefused(r: System, d: nat) {
    && |r.writes| == 1 && r.writes[0].stage == Refused && r.writes[0].dataset == d
    && PendingOf(r, d) == 1 && r.host == Polling(d) && !Enabled(r, FlushSeesZero)
  }

  lemma WriteToClosedPool(s: System, d: nat)
    requires s.hasWorkers && s.host.Away? && s.workers.shutdown && s.writes == [] && s.pending == map[]
    requires Staging.Valid(s.pool) && Staging.Room(s.pool) > 0
    ensures OneRefused(Run(s, [WriteAcquires(d), WriteCopies] + ([WriteIsRefused, WriteCounts] + [FlushBegins(d)])), d)
  {
    Staging.TryAcquireCorrect(s.pool, |s.hostBytes|);
    AcquireStep(s, d);
    RunTwo(s, WriteAcquires(d), WriteCopies, [WriteIsRefused, WriteCounts] + [FlushBegins(d)]);
    var m := Step(Step(s, WriteAcquires(d)), WriteCopies);
    AcquireKeepsPending(s, d);
    RunTwo(m, WriteIsRefused, WriteCounts, [FlushBegins(d)]);
    RunOnce(Step(Step(m, WriteIsRefused), WriteCounts), FlushBegins(d));
    RefusedCount(m, d);
  }

  lemma AcquireKeepsPending(s: System, d: nat)
    ensures Step(Step(s, WriteAcquires(d)), WriteCopies).pending == s.pending
  {
  }

  lemma RefusalLeavesOnePending(pool: Staging.Pool, threads: nat, bytes: Bytes, d: nat)
    requires Staging.Valid(pool) && Staging.Room(pool) > 0
    ensures OneRefused(Run(Init(pool, threads, true, bytes), WriteAfterShutdown(d)), d)
  {
    var s0 := Init(pool, threads, true, bytes);
    var rest := [WriteAcquires(d), WriteCopies] + ([WriteIsRefused, WriteCounts] + [FlushBegins(d)]);
    RunSplit(s0, [WorkerMoves(Workers.SetShutdown)], rest);
    RunOnce(s0, WorkerMoves(Workers.SetShutdown));
    WriteToClosedPool(Step(s0, WorkerMoves(Workers.SetShutdown)), d);
  }

  lemma RunOnce(s: System, a: Action)
    ensures Run(s, [a]) == Step(s, a)
  {
    assert [a][1..] == [];
  }
}
