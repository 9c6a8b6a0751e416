/**
 Staging buffers on the write path come back: in every run a slot of the pool is referenced
 exactly when the read path holds it or one write still does.  And they are large enough
 for the bytes that are copied into them.
 */
module Reclaim {
  import opened Common
  import opened WritePath
  import Staging
  import Workers

  ghost predicate HeldByWrite(s: System, i: nat) {
    exists id :: 0 <= id < |s.writes| && Holds(s.writes[id]) && s.writes[id].buf == i
  }

  /** Nothing stays referenced without a holder. */
  ghost predicate NoLeak(s: System) {
    forall i :: Staging.Referenced(s.pool, i) ==> i in s.others || HeldByWrite(s, i)
  }

  /** No write gives its buffer up. */
  ghost predicate HoldersStay(s: System, s': System) {
    && |s.writes| <= |s'.writes|
    && forall id :: 0 <= id < |s.writes| && Holds(s.writes[id]) ==> Holds(s'.writes[id]) && s'.writes[id].buf == s.writes[id].buf
  }

  lemma KeptIsHeld(s: System, s': System, i: nat)
    requires HoldersStay(s, s') && HeldByWrite(s, i)
    ensures HeldByWrite(s', i)
  {
    var id :| 0 <= id < |s.writes| && Holds(s.writes[id]) && s.writes[id].buf == i;
    assert Holds(s'.writes[id]) && s'.writes[id].buf == i;
  }

  lemma StayingLeaksNothing(s: System, s': System)
    requires NoLeak(s) && HoldersStay(s, s') && s'.pool == s.pool && s'.others == s.others
    ensures NoLeak(s')
  {
    forall i | Staging.Referenced(s'.pool, i) && i !in s'.others ensures HeldByWrite(s', i) {
      KeptIsHeld(s, s', i);
    }
  }

  /******* Acquisitions *******/

  lemma WriteAcquireLeaksNothing(s: System, d: nat)
    requires Staging.Valid(s.pool) && NoLeak(s) && Enabled(s, WriteAcquires(d))
    ensures NoLeak(DoAcquire(s, d))
  {
    Staging.AcquireFrame(s.pool, |s.hostBytes|);
    var (p, r) := Staging.TryAcquire(s.pool, |s.hostBytes|);
    if r.Some? {
      NewHolder(s, DoAcquire(s, d), NewWrite(s, d, r.value), p);
    }
  }

  lemma NewHolder(s: System, s': System, w: Write, p: Staging.Pool)
    requires NoLeak(s) && s'.pool == p && s'.others == s.others && s'.writes == s.writes + [w] && Holds(w)
    requires forall j :: Staging.Referenced(p, j) ==> j == w.buf || Staging.Referenced(s.pool, j)
    ensures NoLeak(s')
  {
    assert s'.writes[|s.writes|] == w;
    forall i | Staging.Referenced(s'.pool, i) && i !in s'.others ensures HeldByWrite(s', i) {
      if i != w.buf { KeptIsHeld(s, s', i); }
    }
  }

  lemma OtherAcquireLeaksNothing(s: System, n: nat)
    requires Staging.Valid(s.pool) && NoLeak(s) && Enabled(s, OtherAcquires(n))
    ensures NoLeak(Apply(s, OtherAcquires(n)))
  {
    Staging.AcquireFrame(s.pool, n);
    var (p, r) := Staging.TryAcquire(s.pool, n);
    if r.Some? {
      NewOther(s, s.(pool := p, others := s.others + {r.value}), r.value);
    }
  }

  lemma NewOther(s: System, s': System, b: nat)
    requires NoLeak(s) && s'.others == s.others + {b} && s'.writes == s.writes
    requires forall j :: Staging.Referenced(s'.pool, j) ==> j == b || Staging.Referenced(s.pool, j)
    ensures NoLeak(s')
  {
    forall i | Staging.Referenced(s'.pool, i) && i !in s'.others ensures HeldByWrite(s', i) {
      KeptIsHeld(s, s', i);
    }
  }

  /******* Releases *******/

  /** Slot `b` is given up and unreferenced; all else stays. */
  lemma GivenUp(s: System, s': System, b: nat, done: int)
    requires NoLeak(s) && |s'.writes| == |s.writes|
    requires forall j :: Staging.Referenced(s'.pool, j) ==> j != b && Staging.Referenced(s.pool, j)
    requires s'.others == s.others || s'.others == s.others - {b}
    requires forall id :: 0 <= id < |s.writes| && id != done ==> s'.writes[id] == s.writes[id]
    requires 0 <= done < |s.writes| ==> s.writes[done].buf == b
    ensures NoLeak(s')
  {
    forall i | Staging.Referenced(s'.pool, i) && i !in s'.others ensures HeldByWrite(s', i) {
      assert i !in s.others;
      var id :| 0 <= id < |s.writes| && Holds(s.writes[id]) && s.writes[id].buf == i;
      assert s'.writes[id] == s.writes[id];
    }
  }

  lemma StubLeaksNothing(s: System)
    requires Staging.Valid(s.pool) && Ownership(s) && HostLinked(s) && NoLeak(s) && Enabled(s, WriteStubs)
    ensures NoLeak(DoStub(s))
  {
    var id := s.host.id;
    assert Holds(s.writes[id]);
    Staging.ReleaseFrame(s.pool, s.writes[id].buf);
    GivenUp(s, DoStub(s), s.writes[id].buf, id);
  }

  lemma FreeLeaksNothing(s: System, v: nat)
    requires Staging.Valid(s.pool) && Ownership(s) && ThreadsLinked(s) && NoLeak(s) && Enabled(s, FreesBuffer(v))
    ensures NoLeak(DoFree(s, v))
  {
    var id := Job(s, v);
    assert Holds(s.writes[id]);
    Staging.ReleaseFrame(s.pool, s.writes[id].buf);
    GivenUp(s, DoFree(s, v), s.writes[id].buf, id);
  }

  lemma OtherReleaseLeaksNothing(s: System, i: nat)
    requires Staging.Valid(s.pool) && Ownership(s) && NoLeak(s) && Enabled(s, OtherReleases(i))
    ensures NoLeak(Apply(s, OtherReleases(i)))
  {
    Staging.ReleaseFrame(s.pool, i);
    GivenUp(s, Apply(s, OtherReleases(i)), i, -1);
  }

  /******* Everything else *******/

  lemma CallbackLeaksNothing(s: System, a: Action)
    requires Linked(s) && NoLeak(s) && Enabled(s, a) && (a.CallsDriver? || a.Decrements? || a.Returns?)
    ensures NoLeak(Apply(s, a))
  {
    assert s.writes[Job(s, a.worker)].stage == s.step[a.worker];
    StayingLeaksNothing(s, Apply(s, a));
  }

  lemma WorkerMoveLeaksNothing(s: System, move: Workers.Action)
    requires Linked(s) && NoLeak(s) && Enabled(s, WorkerMoves(move))
    ensures NoLeak(DoWorkerMove(s, move))
  {
    if Starts(s, move) {
      assert s.workers.queue[0] in s.workers.queue;
    }
    StayingLeaksNothing(s, DoWorkerMove(s, move));
  }

  lemma HostLeaksNothing(s: System, a: Action)
    requires HostLinked(s) && NoLeak(s) && Enabled(s, a) && (a.WriteSubmits? || a.WriteIsRefused? || a.WriteCounts?)
    ensures NoLeak(Apply(s, a))
  {
    StayingLeaksNothing(s, Apply(s, a));
  }

  lemma QuietLeaksNothing(s: System, a: Action)
    requires NoLeak(s) && Enabled(s, a)
    requires a.HostScribbles? || a.WriteCopies? || a.OtherFills? || a.FlushBegins? || a.FlushSeesZero? || a.FlushExpires?
      || a.FlushReports? || a.HostGoesOn?
    ensures NoLeak(Apply(s, a))
  {
    StayingLeaksNothing(s, Apply(s, a));
  }

  lemma BufferActionsLeakNothing(s: System, a: Action)
    requires Staging.Valid(s.pool) && Ownership(s) && Linked(s) && NoLeak(s) && Enabled(s, a)
    requires a.WriteAcquires? || a.OtherAcquires? || a.WriteStubs? || a.FreesBuffer? || a.OtherReleases?
    ensures NoLeak(Apply(s, a))
  {
    match a {
      case WriteAcquires(d) => WriteAcquireLeaksNothing(s, d);
      case OtherAcquires(n) => OtherAcquireLeaksNothing(s, n);
      case WriteStubs => StubLeaksNothing(s);
      case FreesBuffer(v) => FreeLeaksNothing(s, v);
      case OtherReleases(i) => OtherReleaseLeaksNothing(s, i);
    }
  }

  lemma StepLeaksNothing(s: System, a: Action)
    requires Staging.Valid(s.pool) && Ownership(s) && Linked(s) && NoLeak(s)
    ensures NoLeak(Step(s, a))
  {
    if Enabled(s, a) {
      if a.WriteAcquires? || a.OtherAcquires? || a.WriteStubs? || a.FreesBuffer? || a.OtherReleases? {
        BufferActionsLeakNothing(s, a);
      } else if a.CallsDriver? || a.Decrements? || a.Returns? {
        CallbackLeaksNothing(s, a);
      } else if a.WorkerMoves? {
        WorkerMoveLeaksNothing(s, a.action);
      } else if a.WriteSubmits? || a.WriteIsRefused? || a.WriteCounts? {
        HostLeaksNothing(s, a);
      } else {
        QuietLeaksNothing(s, a);
      }
    }
  }

  lemma {:induction false} RunLeaksNothing(s: System, actions: seq<Action>)
    requires Inv(s) && NoLeak(s)
    ensures NoLeak(Run(s, actions))
    decreases |actions|
  {
    if actions != [] {
      StepInv(s, actions[0]);
      StepLeaksNothing(s, actions[0]);
      RunLeaksNothing(Step(s, actions[0]), actions[1..]);
    }
  }

  /******* What every run guarantees *******/

  /** Write `id` holds slot `i`, and no other write does. */
  ghost predicate SoleHolder(s: System, id: nat, i: nat) {
    && id < |s.writes| && Holds(s.writes[id]) && s.writes[id].buf == i
    && (forall j :: 0 <= j < |s.writes| && Holds(s.writes[j]) && s.writes[j].buf == i ==> j == id)
  }

  /** Slot `i` has exactly one holder among the writes and the read path. */
  ghost predicate OneHolder(s: System, i: nat) {
    if i in s.others then !HeldByWrite(s, i) else exists id :: SoleHolder(s, id, i)
  }

  lemma HoldersAreReferenced(s: System, i: nat)
    requires Ownership(s) && NoLeak(s)
    ensures Staging.Referenced(s.pool, i) <==> OneHolder(s, i)
  {
    if Staging.Referenced(s.pool, i) && i !in s.others {
      var id :| 0 <= id < |s.writes| && Holds(s.writes[id]) && s.writes[id].buf == i;
      assert SoleHolder(s, id, i);
    }
  }

  /** In every run from a pool that has handed nothing out, a slot is referenced if and only
      if the read path holds it or exactly one write does that has not given it up; so once
      every write's callback is past its release, or there is no worker pool, only the read
      path's buffers remain acquired. */
  lemma BuffersComeBack(pool: Staging.Pool, threads: nat, hasWorkers: bool, bytes: Bytes, actions: seq<Action>)
    requires Staging.Valid(pool) && forall i :: !Staging.Referenced(pool, i)
    ensures var s := Run(Init(pool, threads, hasWorkers, bytes), actions);
      && (forall i :: Staging.Referenced(s.pool, i) <==> OneHolder(s, i))
      && ((forall id :: 0 <= id < |s.writes| ==> s.writes[id].stage in {Freed, Settled, Stubbed}) ==>
            forall i :: Staging.Referenced(s.pool, i) <==> i in s.others)
  {
    var s0 := Init(pool, threads, hasWorkers, bytes);
    InitInv(pool, threads, hasWorkers, bytes);
    RunInv(s0, actions);
    RunLeaksNothing(s0, actions);
    var s := Run(s0, actions);
    forall i ensures Staging.Referenced(s.pool, i) <==> OneHolder(s, i) {
      HoldersAreReferenced(s, i);
    }
  }

  /******* Room for the bytes *******/

  predicate HasRoom(p: Staging.Pool, w: Write) {
    w.buf < |p.buffers| && |w.snap| <= p.buffers[w.buf].capacity
  }

  ghost predicate AllHaveRoom(s: System) {
    forall id :: 0 <= id < |s.writes| && Holds(s.writes[id]) ==> HasRoom(s.pool, s.writes[id])
  }

  /** No referenced slot loses storage. */
  ghost predicate CapacityStays(p: Staging.Pool, q: Staging.Pool) {
    forall j: nat :: Staging.Referenced(p, j) ==> j < |q.buffers| && q.buffers[j].capacity == p.buffers[j].capacity
  }

  /** No write comes to hold a buffer, and none changes what it staged. */
  ghost predicate NoNewHolder(s: System, s': System) {
    && |s'.writes| == |s.writes|
    && forall id :: 0 <= id < |s.writes| && Holds(s'.writes[id]) ==>
         Holds(s.writes[id]) && s'.writes[id].buf == s.writes[id].buf && s'.writes[id].snap == s.writes[id].snap
  }

  lemma RoomStays(s: System, s': System)
    requires Ownership(s) && AllHaveRoom(s) && NoNewHolder(s, s') && CapacityStays(s.pool, s'.pool)
    ensures AllHaveRoom(s')
  {
    forall id | 0 <= id < |s'.writes| && Holds(s'.writes[id]) ensures HasRoom(s'.pool, s'.writes[id]) {
      assert Holds(s.writes[id]) && Staging.Referenced(s.pool, s.writes[id].buf);
    }
  }

  lemma AcquireKeepsCapacity(p: Staging.Pool, n: nat)
    requires Staging.Valid(p)
    ensures var (q, r) := Staging.TryAcquire(p, n);
      CapacityStays(p, q) && (r.Some? ==> r.value < |q.buffers| && q.buffers[r.value].capacity >= n)
  {
    Staging.TryAcquireCorrect(p, n);
  }

  lemma OneMoreHasRoom(s: System, s': System, w: Write)
    requires Ownership(s) && AllHaveRoom(s) && CapacityStays(s.pool, s'.pool) && s'.writes == s.writes + [w] && HasRoom(s'.pool, w)
    ensures AllHaveRoom(s')
  {
    forall id | 0 <= id < |s'.writes| && Holds(s'.writes[id]) ensures HasRoom(s'.pool, s'.writes[id]) {
      if id < |s.writes| { assert s'.writes[id] == s.writes[id] && Staging.Referenced(s.pool, s.writes[id].buf); }
    }
  }

  lemma AcquireHasRoom(s: System, d: nat)
    requires Staging.Valid(s.pool) && Ownership(s) && AllHaveRoom(s) && Enabled(s, WriteAcquires(d))
    ensures AllHaveRoom(DoAcquire(s, d))
  {
    AcquireKeepsCapacity(s.pool, |s.hostBytes|);
    var r := Staging.TryAcquire(s.pool, |s.hostBytes|).1;
    if r.Some? { OneMoreHasRoom(s, DoAcquire(s, d), NewWrite(s, d, r.value)); }
  }

  lemma ReleaseKeepsCapacity(p: Staging.Pool, i: nat)
    requires Staging.Valid(p) && Staging.Referenced(p, i)
    ensures CapacityStays(p, Staging.Release(p, i))
  {
    Staging.ReleaseCorrect(p, i);
  }

  lemma FreeKeepsCapacity(s: System, v: nat)
    requires Staging.Valid(s.pool) && Enabled(s, FreesBuffer(v))
    ensures CapacityStays(s.pool, DoFree(s, v).pool)
  {
    ReleaseKeepsCapacity(s.pool, s.writes[Job(s, v)].buf);
  }

  lemma OthersKeepCapacity(s: System, a: Action)
    requires Staging.Valid(s.pool) && Enabled(s, a) && (a.OtherAcquires? || a.OtherReleases?)
    ensures CapacityStays(s.pool, Apply(s, a).pool)
  {
    if a.OtherAcquires? {
      AcquireKeepsCapacity(s.pool, a.required);
    } else {
      ReleaseKeepsCapacity(s.pool, a.slot);
    }
  }

  lemma PoolActionsKeepCapacity(s: System, a: Action)
    requires Staging.Valid(s.pool) && Enabled(s, a)
    requires a.OtherAcquires? || a.OtherReleases? || a.WriteStubs? || a.FreesBuffer?
    ensures CapacityStays(s.pool, Apply(s, a).pool)
  {
    if a.WriteStubs? {
      ReleaseKeepsCapacity(s.pool, s.writes[s.host.id].buf);
    } else if a.FreesBuffer? {
      FreeKeepsCapacity(s, a.worker);
    } else {
      OthersKeepCapacity(s, a);
    }
  }

  lemma WorkerMoveNoNewHolder(s: System, move: Workers.Action)
    requires Linked(s) && Enabled(s, WorkerMoves(move))
    ensures NoNewHolder(s, DoWorkerMove(s, move))
  {
    if Starts(s, move) {
      assert s.workers.queue[0] in s.workers.queue;
    }
  }

  lemma FreeNoNewHolder(s: System, v: nat)
    requires Enabled(s, FreesBuffer(v))
    ensures NoNewHolder(s, DoFree(s, v))
  {
  }

  lemma CallbackNoNewHolder(s: System, a: Action)
    requires Linked(s) && Enabled(s, a) && (a.CallsDriver? || a.FreesBuffer? || a.Decrements? || a.Returns?)
    ensures NoNewHolder(s, Apply(s, a))
  {
    if a.FreesBuffer? {
      FreeNoNewHolder(s, a.worker);
    } else {
      assert s.writes[Job(s, a.worker)].stage == s.step[a.worker];
    }
  }

  lemma HostNoNewHolder(s: System, a: Action)
    requires HostLinked(s) && Enabled(s, a) && (a.WriteSubmits? || a.WriteIsRefused? || a.WriteCounts? || a.WriteStubs?)
    ensures NoNewHolder(s, Apply(s, a))
  {
  }

  lemma StepNoNewHolder(s: System, a: Action)
    requires Linked(s) && Enabled(s, a) && !a.WriteAcquires?
    ensures NoNewHolder(s, Apply(s, a))
  {
    if Bystander(a) {
      BystanderFrame(s, a);
    } else if a.WorkerMoves? {
      WorkerMoveNoNewHolder(s, a.action);
    } else if a.CallsDriver? || a.FreesBuffer? || a.Decrements? || a.Returns? {
      CallbackNoNewHolder(s, a);
    } else {
      HostNoNewHolder(s, a);
    }
  }

  lemma OthersKeepPool(s: System, a: Action)
    requires Enabled(s, a) && !a.WriteAcquires? && !a.OtherAcquires? && !a.OtherReleases? && !a.WriteStubs? && !a.FreesBuffer?
    ensures Apply(s, a).pool == s.pool
  {
  }

  lemma StepHasRoom(s: System, a: Action)
    requires Staging.Valid(s.pool) && Ownership(s) && Linked(s) && AllHaveRoom(s)
    ensures AllHaveRoom(Step(s, a))
  {
    if Enabled(s, a) {
      if a.WriteAcquires? {
        AcquireHasRoom(s, a.dataset);
      } else {
        StepNoNewHolder(s, a);
        if a.OtherAcquires? || a.OtherReleases? || a.WriteStubs? || a.FreesBuffer? {
          PoolActionsKeepCapacity(s, a);
        } else {
          OthersKeepPool(s, a);
        }
        RoomStays(s, Apply(s, a));
      }
    }
  }

  lemma {:induction false} RunHasRoom(s: System, actions: seq<Action>)
    requires Inv(s) && AllHaveRoom(s)
    ensures AllHaveRoom(Run(s, actions))
    decreases |actions|
  {
    if actions != [] {
      StepInv(s, actions[0]);
      StepHasRoom(s, actions[0]);
      RunHasRoom(Step(s, actions[0]), actions[1..]);
    }
  }

  /** In every run the buffer that a write holds has room for the bytes that the write
      copies into it and the driver reads from it. */
  lemma BytesFit(pool: Staging.Pool, threads: nat, hasWorkers: bool, bytes: Bytes, actions: seq<Action>, id: nat)
    requires Staging.Valid(pool)
    requires var s := Run(Init(pool, threads, hasWorkers, bytes), actions); id < |s.writes| && Holds(s.writes[id])
    ensures var s := Run(Init(pool, threads, hasWorkers, bytes), actions); var w := s.writes[id];
      w.buf < |s.pool.buffers| && |w.snap| <= s.pool.buffers[w.buf].capacity
  {
    var s0 := Init(pool, threads, hasWorkers, bytes);
    InitInv(pool, threads, hasWorkers, bytes);
    RunHasRoom(s0, actions);
    assert HasRoom(Run(s0, actions).pool, Run(s0, actions).writes[id]);
  }
}
