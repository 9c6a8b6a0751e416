/**
 The prefetch queue as the object it is in the program, used without a worker pool.  Its
 methods are proved against the functions of the synchronous model.
 */
module PrefetchObject {
  import opened Common
  import opened Selections
  import opened Prefetch
  import opened PrefetchSync
  import opened SyncRefinement
  import Staging

  lemma ReleaseKeepsPool(p: Staging.Pool, i: nat)
    requires Staging.Valid(p)
    ensures Staging.Valid(ReleaseIfHeld(p, i))
  {
    if Staging.Referenced(p, i) { Staging.ReleaseCorrect(p, i); }
  }

  /** Marking the timestep as pending first makes no difference. */
  lemma OutcomeOfPending(s: System, t: int, d: Backend)
    requires Staging.InRange(s.pool) && t !in s.q.pending
    ensures Outcome(s.(q := s.q.(pending := s.q.pending + {t})), t, d) == Outcome(s, t, d)
  {
    var m := s.(q := s.q.(pending := s.q.pending + {t}));
    var (p, r) := Staging.TryAcquire(s.pool, d.bytes(s.q.latched));
    if r.Some? {
      StockedOfPending(s, m, t, r.value, p);
      BotchedOfPending(s, m, t, BackendFailure, ReleaseIfHeld(p, r.value), s.content - {r.value}, s.trail + [(t, s.q.latched)]);
    } else {
      BotchedOfPending(s, m, t, StagingBackpressure, s.pool, s.content, s.trail);
    }
  }

  lemma StockedOfPending(s: System, m: System, t: int, i: nat, p: Staging.Pool)
    requires m == s.(q := s.q.(pending := s.q.pending + {t}))
    ensures Stocked(m, t, i, p) == Stocked(s, t, i, p)
  {
    assert s.q.pending + {t} - {t} == s.q.pending - {t};
  }

  lemma BotchedOfPending(s: System, m: System, t: int, e: Status, p: Staging.Pool,
                         content: map<nat, (int, Selection)>, trail: seq<(int, Selection)>)
    requires m == s.(q := s.q.(pending := s.q.pending + {t}))
    ensures Botched(m, t, e, p, content, trail) == Botched(s, t, e, p, content, trail)
  {
    assert s.q.pending + {t} - {t} == s.q.pending - {t};
  }

  lemma OutcomeKeepsPool(s: System, t: int, d: Backend)
    requires Staging.Valid(s.pool)
    ensures Staging.Valid(Outcome(s, t, d).pool)
  {
    AcquireKeepsPool(s.pool, d.bytes(s.q.latched));
  }

  lemma AcquireKeepsPool(p: Staging.Pool, n: nat)
    requires Staging.Valid(p)
    ensures var (q, r) := Staging.TryAcquire(p, n); Staging.Valid(q) && (r.Some? ==> Staging.Valid(ReleaseIfHeld(q, r.value)))
  {
    Staging.TryAcquireCorrect(p, n);
    var (q, r) := Staging.TryAcquire(p, n);
    if r.Some? { ReleaseKeepsPool(q, r.value); }
  }

  class PrefetchQueue {
    var completed: map<int, nat>
    var fetched: map<int, Box>
    var pending: set<int>
    var failed: map<int, Status>
    var latched: Selection
    var kicked: bool
    var cancelled: bool
    var pool: Staging.Pool
    var readCount: nat              // driver reads so far
    const depth: nat
    const total: int
    ghost var others: set<nat>
    ghost var handed: set<nat>
    ghost var content: map<nat, (int, Selection)>
    ghost var trail: seq<(int, Selection)>
    ghost var started: nat

    /** The abstract state between two calls. */
    ghost function Sys(): System
      reads this
    {
      System(Queue(completed, fetched, pending, failed, latched, kicked, cancelled), pool,
             map[], started, handed, others, content, trail, map[], depth, total, None)
    }

    ghost predicate Ready()
      reads this
    {
      Staging.Valid(pool) && pending == {} && readCount == |trail|
    }

    constructor (pool: Staging.Pool, ghost others: set<nat>, depth: nat, total: int)
      requires Staging.Valid(pool)
      ensures Ready() && Sys() == Init(pool, others, depth, total)
    {
      completed, fetched, pending, failed, latched := map[], map[], {}, map[], None;
      kicked, cancelled, readCount := false, false, 0;
      this.pool, this.others, this.depth, this.total := pool, others, depth, total;
      handed, content, trail, started := {}, map[], [], 0;
    }

    method MarkComplete(t: int, buf: nat, sel: Selection)
      modifies this
      ensures Sys() == var s := old(Sys());
                       s.(q := s.q.(pending := s.q.pending - {t}, completed := s.q.completed[t := buf],
                                    fetched := if sel.Some? then s.q.fetched[t := sel.value] else s.q.fetched - {t}))
      ensures readCount == old(readCount)
    {
      pending := pending - {t};
      completed := completed[t := buf];
      fetched := if sel.Some? then fetched[t := sel.value] else fetched - {t};
    }

    method MarkFailed(t: int, error: Status)
      modifies this
      ensures Sys() == var s := old(Sys()); s.(q := s.q.(pending := s.q.pending - {t}, failed := s.q.failed[t := error]))
      ensures readCount == old(readCount)
    {
      pending := pending - {t};
      failed := failed[t := error];
    }

    /** The driver has been asked to read `t` into `buf`. */
    method LogRead(t: int, sel: Selection, buf: nat, ok: bool)
      requires readCount == |trail|
      modifies this
      ensures Sys() == var s := old(Sys());
                       s.(nextFetch := s.nextFetch + 1, trail := s.trail + [(t, sel)],
                          content := if ok then s.content[buf := (t, sel)] else s.content - {buf})
      ensures readCount == |trail|
    {
      started, trail, readCount := started + 1, trail + [(t, sel)], readCount + 1;
      content := if ok then content[buf := (t, sel)] else content - {buf};
    }

    /** A good read is staged. */
    method ReadOk(t: int, sel: Selection, buf: nat)
      requires pending == {t} && readCount == |trail| && sel == latched
      modifies this
      ensures readCount == |trail|
      ensures Sys() == Stocked(old(Sys()), t, buf, old(pool))
    {
      LogRead(t, sel, buf, true);
      MarkComplete(t, buf, sel);
    }

    /** A failed read is recorded; its buffer was returned before. */
    method ReadFailed(t: int, sel: Selection, buf: nat)
      requires pending == {t} && readCount == |trail| && sel == latched
      modifies this
      ensures readCount == |trail|
      ensures Sys() == var s := old(Sys());
                       Botched(s, t, BackendFailure, s.pool, s.content - {buf}, s.trail + [(t, s.q.latched)])
    {
      LogRead(t, sel, buf, false);
      MarkFailed(t, BackendFailure);
    }

    /** The fetch itself, on the calling thread, of the one pending timestep. */
    method SyncFetch(t: int, sel: Selection, d: Backend)
      requires Staging.InRange(pool) && pending == {t} && readCount == |trail| && sel == latched
      modifies this
      ensures readCount == |trail|
      ensures pending == {}
      ensures Sys() == if old(cancelled) then old(Sys()).(q := old(Sys()).q.(pending := {})) else Outcome(old(Sys()), t, d)
    {
      if cancelled {
        pending := pending - {t};
        return;
      }
      var (p, r) := Staging.TryAcquire(pool, d.bytes(sel));
      if r.None? {
        started := started + 1;
        MarkFailed(t, StagingBackpressure);
        return;
      }
      if d.ok(readCount) {
        pool := p;
        ReadOk(t, sel, r.value);
      } else {
        pool := ReleaseIfHeld(p, r.value);
        ReadFailed(t, sel, r.value);
      }
    }

    method ScheduleFetch(t: int, d: Backend)
      requires Ready()
      modifies this
      ensures Ready() && Sys() == SyncSchedule(old(Sys()), t, d)
    {
      if cancelled || t in pending || t in completed || t in failed { return; }
      SyncScheduleOutcome(Sys(), t, d);
      OutcomeKeepsPool(Sys(), t, d);
      OutcomeOfPending(Sys(), t, d);
      pending := pending + {t};
      SyncFetch(t, latched, d);
    }

    /** Schedule timestep `t + k` of a window of `count`. */
    method FetchAhead(t: int, k: int, count: int, d: Backend)
      requires Ready() && k < count
      modifies this
      ensures Ready() && SyncKick(Sys(), t, k + 1, count, d) == SyncKick(old(Sys()), t, k, count, d)
    {
      SyncKickStep(Sys(), t, k, count, d);
      ScheduleFetch(t + k, d);
    }

    /** Open the look-ahead window. */
    method KickOff(t: int, d: Backend)
      requires Ready()
      modifies this
      ensures Ready()
      ensures Sys() == SyncKick(old(Sys()), t, 0, if depth <= total - t then depth else total - t, d)
    {
      var count := if depth <= total - t then depth else total - t;
      var k := 0;
      ghost var target := SyncKick(Sys(), t, 0, count, d);
      while k < count
        invariant Ready() && SyncKick(Sys(), t, k, count, d) == target
      {
        FetchAhead(t, k, count, d);
        k := k + 1;
      }
    }

    /** Warm-up from timestep 0, before any selection is known. */
    method ScheduleInitial(d: Backend)
      requires Ready()
      modifies this
      ensures Ready()
      ensures Sys() == var s := old(Sys().(q := Sys().q.(kicked := true))); SyncKick(s, 0, 0, Min(s.depth, s.total), d)
    {
      var count := if depth <= total then depth else total;
      kicked := true;
      ghost var target := SyncKick(Sys(), 0, 0, count, d);
      var t := 0;
      while t < count
        invariant Ready() && SyncKick(Sys(), 0, t, count, d) == target
      {
        FetchAhead(0, t, count, d);
        t := t + 1;
      }
    }

    /** Take the buffer of `t` if it is staged with the requested selection, else discard it. */
    method TakeOrDrop(t: int, sel: Selection) returns (buf: Option<nat>)
      requires Ready() && t in completed
      modifies this
      ensures Ready()
      ensures if Same(Recorded(old(Sys().q), t), sel) then buf == Some(old(completed[t])) && Sys() == Take(old(Sys()), t)
              else buf == None && Sys() == Drop(old(Sys()), t)
    {
      var have := if t in fetched then Some(fetched[t]) else None;
      var same := BoxSame(have, sel);
      if same {
        buf := Some(completed[t]);
        handed := handed + {completed[t]};
      } else {
        buf := None;
        ReturnBuffer(completed[t]);
      }
      ForgetStaged(t);
    }

    method ReturnBuffer(b: nat)
      requires Ready()
      modifies this
      ensures Ready() && Sys() == var s := old(Sys()); s.(pool := ReleaseIfHeld(s.pool, b))
    {
      ReleaseKeepsPool(pool, b);
      pool := ReleaseIfHeld(pool, b);
    }

    method ForgetStaged(t: int)
      requires Ready()
      modifies this
      ensures Ready() && Sys() == var s := old(Sys()); s.(q := Forget(s.q, t))
    {
      completed := completed - {t};
      fetched := fetched - {t};
    }

    method TakeFailure(t: int) returns (error: Status)
      requires Ready() && t in failed
      modifies this
      ensures Ready() && error == old(failed[t]) && Sys() == Consume(old(Sys()), t)
    {
      error := failed[t];
      failed := failed - {t};
    }

    /** The last look when the deadline has passed. */
    method Expired(t: int) returns (status: Status, buf: Option<nat>)
      requires Ready()
      modifies this
      ensures Ready()
      ensures Sys() == Expiry(old(Sys()), t).0
      ensures status == Expiry(old(Sys()), t).1.status && buf == Expiry(old(Sys()), t).1.buf
    {
      if t in completed {
        status, buf := Ok, Some(completed[t]);
        handed := handed + {completed[t]};
        completed := completed - {t};
      } else if t in failed {
        status := TakeFailure(t);
        buf := None;
      } else {
        status, buf := Timeout, None;
      }
    }

    /** The staged check of the wait loop: hand the buffer out, or replace a stale one. */
    method TakeOrReplace(t: int, sel: Selection, d: Backend) returns (buf: Option<nat>)
      requires Ready() && t in completed
      modifies this
      ensures Ready()
      ensures if Same(Recorded(old(Sys().q), t), sel) then buf == Some(old(completed[t])) && Sys() == Take(old(Sys()), t)
              else buf == None && Sys() == SyncSchedule(Drop(old(Sys()), t), t, d)
    {
      buf := TakeOrDrop(t, sel);
      if buf.None? { ScheduleFetch(t, d); }
    }

    /** The wait loop; `wakes` spurious wakeups happen before the deadline. */
    method WaitFor(t: int, sel: Selection, d: Backend, wakes: nat) returns (status: Status, buf: Option<nat>)
      requires Ready()
      modifies this
      ensures Ready() && Answer(Sys(), status, buf) == SyncLoop(old(Sys()), t, sel, d, wakes)
    {
      var left := wakes;
      ghost var target := SyncLoop(Sys(), t, sel, d, wakes);
      while true
        invariant Ready() && SyncLoop(Sys(), t, sel, d, left) == target
        decreases left
      {
        if t in completed {
          buf := TakeOrReplace(t, sel, d);
          if buf.Some? { return Ok, buf; }
        }
        assert SyncWait(Sys(), t, sel, d, left) == target;
        if t in failed {
          status := TakeFailure(t);
          return status, None;
        }
        if cancelled { return BackendFailure, None; }
        if left == 0 {
          status, buf := Expired(t);
          return;
        }
        left := left - 1;
      }
    }

    /** Latch the selection, and open the look-ahead window on first use. */
    method EnterCall(t: int, sel: Selection, d: Backend)
      requires Ready()
      modifies this
      ensures Ready() && Sys() == SyncEnter(old(Sys()), t, sel, d)
    {
      latched := sel;
      if !kicked {
        kicked := true;
        KickOff(t, d);
      }
    }

    method GetBuffer(t: int, sel: Selection, d: Backend, wakes: nat) returns (status: Status, buf: Option<nat>)
      requires Ready()
      modifies this
      ensures Ready() && Answer(Sys(), status, buf) == SyncGet(old(Sys()), t, sel, d, wakes)
    {
      EnterCall(t, sel, d);
      if t in failed {
        status := TakeFailure(t);
        return status, None;
      }
      if t in completed {
        buf := TakeOrDrop(t, sel);
        if buf.Some? { return Ok, buf; }
      }
      if t !in pending {
        ScheduleFetch(t, d);
      }
      status, buf := WaitFor(t, sel, d, wakes);
    }

    method ScheduleNext(t: int, d: Backend)
      requires Ready()
      modifies this
      ensures Ready() && Sys() == SyncNext(old(Sys()), t, d)
    {
      var next := t + depth;
      if next >= total { return; }
      ScheduleFetch(next, d);
    }

    /** Release every staged buffer, in the order given. */
    method ReleaseStaged(order: seq<int>)
      requires Staging.Valid(pool) && forall i :: 0 <= i < |order| ==> order[i] in completed
      modifies this
      ensures Sys() == old(Sys()).(pool := pool) && readCount == old(readCount)
      ensures Staging.Valid(pool) && pool == ReleaseEach(old(pool), completed, order)
    {
      var i := 0;
      while i < |order|
        invariant 0 <= i <= |order| && Staging.Valid(pool)
        invariant Sys() == old(Sys()).(pool := pool) && readCount == old(readCount)
        invariant ReleaseEach(pool, completed, order[i..]) == ReleaseEach(old(pool), completed, order)
      {
        ReleaseKeepsPool(pool, completed[order[i]]);
        pool := ReleaseIfHeld(pool, completed[order[i]]);
        i := i + 1;
      }
    }

    method MarkCancelled()
      modifies this
      ensures Sys() == var s := old(Sys()); s.(q := s.q.(cancelled := true, pending := {}))
      ensures readCount == old(readCount)
    {
      cancelled, pending := true, {};
    }

    method ClearMaps()
      modifies this
      ensures Sys() == var s := old(Sys()); s.(q := s.q.(completed := map[], fetched := map[], failed := map[]))
      ensures readCount == old(readCount)
    {
      completed, fetched, failed := map[], map[], map[];
    }

    /** Return every staged buffer and clear the maps. */
    method ClearAll(order: seq<int>)
      requires Staging.Valid(pool) && forall i :: 0 <= i < |order| ==> order[i] in completed
      modifies this
      ensures Staging.Valid(pool) && readCount == old(readCount) && trail == old(trail)
      ensures Sys() == var s := old(Sys());
                       s.(pool := ReleaseEach(s.pool, s.q.completed, order),
                          q := Queue(map[], map[], {}, map[], s.q.latched, s.q.kicked, true))
    {
      ghost var s := Sys();
      MarkCancelled();
      ReleaseStaged(order);
      assert pool == ReleaseEach(s.pool, s.q.completed, order);
      ClearMaps();
    }

    /** `order` is the order in which the program's ordered map lists the staged timesteps. */
    method CancelPending(order: seq<int>)
      requires Ready() && Lists(order, completed)
      modifies this
      ensures Ready() && Sys() == Cancel(old(Sys()), order)
    {
      CancelOutcome(Sys(), order);
      ClearAll(order);
    }
  }
}
