/**
 The prefetch queue without a worker pool: every fetch runs to its end on the calling
 thread.  Each operation is a run of the concurrent queue's actions, so all its
 guarantees carry over; on top of them a sequential scan is shown to read every record
 exactly once, in order.
 */
module PrefetchSync {
  import opened Common
  import opened Selections
  import opened Prefetch
  import Staging

  /** What the queue cannot see: how many bytes a selection needs, and whether the n-th
      driver read succeeds. */
  datatype Backend = Backend(bytes: Selection -> nat, ok: nat -> bool)

  /******* One fetch *******/

  /** Everything a fetch may do; the actions that do not apply are skipped. */
  function Script(f: nat, required: nat, ok: bool): seq<Action> {
    [FetchStarts(f), FetchAcquires(f, required), FetchGivesUp(f), FetchReads(f, ok), FetchReleases(f), FetchLands(f)]
  }

  /** `schedule_fetch` with its synchronous fetch. */
  function SyncSchedule(s: System, t: int, d: Backend): System {
    if s.q.cancelled || Tracked(s.q, t) then s
    else Run(Schedule(s, t), Script(s.nextFetch, d.bytes(s.q.latched), d.ok(|s.trail|)))
  }

  lemma RunThree(s: System, a: Action, b: Action, c: Action, rest: seq<Action>)
    ensures Run(s, [a, b, c] + rest) == Run(Step(Step(Step(s, a), b), c), rest)
  {
    assert [a, b, c] + rest == [a] + ([b] + ([c] + rest));
    RunOne(s, a, [b] + ([c] + rest));
    RunOne(Step(s, a), b, [c] + rest);
    RunOne(Step(Step(s, a), b), c, rest);
  }

  lemma RunSix(s: System, a: Action, b: Action, c: Action, d: Action, e: Action, f: Action)
    ensures Run(s, [a, b, c, d, e, f]) == Step(Step(Step(Step(Step(Step(s, a), b), c), d), e), f)
  {
    assert [a, b, c, d, e, f] == [a, b, c] + ([d, e, f] + []);
    RunThree(s, a, b, c, [d, e, f] + []);
    RunThree(Step(Step(Step(s, a), b), c), d, e, f, []);
  }

  /** The state after a fetch of `t` that found buffer `i` and succeeded. */
  function Stocked(s: System, t: int, i: nat, p: Staging.Pool): System {
    s.(q := s.q.(pending := s.q.pending - {t}, completed := s.q.completed[t := i],
                 fetched := if s.q.latched.Some? then s.q.fetched[t := s.q.latched.value] else s.q.fetched - {t}),
       pool := p, nextFetch := s.nextFetch + 1,
       content := s.content[i := (t, s.q.latched)], trail := s.trail + [(t, s.q.latched)])
  }

  /** The state after a fetch of `t` that failed; `p` is the pool with any buffer returned. */
  function Botched(s: System, t: int, e: Status, p: Staging.Pool, content: map<nat, (int, Selection)>, trail: seq<(int, Selection)>): System {
    s.(q := s.q.(pending := s.q.pending - {t}, failed := s.q.failed[t := e]), pool := p, nextFetch := s.nextFetch + 1, content := content, trail := trail)
  }

  /** No fetch is in progress between calls. */
  predicate Quiet(s: System) {
    s.fetches == map[] && s.q.pending == {} && Open(s)
  }

  /** The three ways a synchronous fetch of `t` with the latched selection can end. */
  function Outcome(s: System, t: int, d: Backend): System
    requires Staging.InRange(s.pool)
  {
    var (p, r) := Staging.TryAcquire(s.pool, d.bytes(s.q.latched));
    if r.None? then Botched(s, t, StagingBackpressure, s.pool, s.content, s.trail)
    else if d.ok(|s.trail|) then Stocked(s, t, r.value, p)
    else Botched(s, t, BackendFailure, ReleaseIfHeld(p, r.value), s.content - {r.value}, s.trail + [(t, s.q.latched)])
  }

  lemma SyncScheduleOutcome(s: System, t: int, d: Backend)
    requires Staging.Valid(s.pool) && Quiet(s) && !s.q.cancelled && !Tracked(s.q, t)
    ensures SyncSchedule(s, t, d) == Outcome(s, t, d)
  {
    var f, n, ok := s.nextFetch, d.bytes(s.q.latched), d.ok(|s.trail|);
    var m := Schedule(s, t);
    RunSix(m, FetchStarts(f), FetchAcquires(f, n), FetchGivesUp(f), FetchReads(f, ok), FetchReleases(f), FetchLands(f));
    var m1 := m.(fetches := map[f := Fetch(t, s.q.latched, Started)]);
    FetchBegins(s, t);
    FetchOutcome(s, m1, t, d);
  }

  lemma FetchBegins(s: System, t: int)
    requires Quiet(s) && !s.q.cancelled && !Tracked(s.q, t)
    ensures Step(Schedule(s, t), FetchStarts(s.nextFetch))
         == Schedule(s, t).(fetches := map[s.nextFetch := Fetch(t, s.q.latched, Started)])
  {
  }

  lemma FetchOutcome(s: System, m1: System, t: int, d: Backend)
    requires Staging.Valid(s.pool) && Quiet(s) && !Tracked(s.q, t)
    requires m1 == Schedule(s, t).(fetches := map[s.nextFetch := Fetch(t, s.q.latched, Started)]) && !s.q.cancelled
    ensures var f, n, ok := s.nextFetch, d.bytes(s.q.latched), d.ok(|s.trail|);
      var m2 := Step(m1, FetchAcquires(f, n));
      Step(Step(Step(Step(m2, FetchGivesUp(f)), FetchReads(f, ok)), FetchReleases(f)), FetchLands(f)) == Outcome(s, t, d)
  {
    var f, n, ok := s.nextFetch, d.bytes(s.q.latched), d.ok(|s.trail|);
    if Staging.TryAcquire(s.pool, n).1.None? {
      WithoutBuffer(s, m1, f, t, n, ok);
    } else {
      WithBuffer(s, m1, f, t, n, ok);
    }
  }

  lemma WithoutBuffer(s: System, m1: System, f: nat, t: int, n: nat, ok: bool)
    requires Staging.Valid(s.pool) && Quiet(s) && f == s.nextFetch && !Tracked(s.q, t) && Staging.TryAcquire(s.pool, n).1.None?
    requires m1 == Schedule(s, t).(fetches := map[f := Fetch(t, s.q.latched, Started)]) && !s.q.cancelled
    ensures var m2 := Step(m1, FetchAcquires(f, n));
      Step(Step(Step(Step(m2, FetchGivesUp(f)), FetchReads(f, ok)), FetchReleases(f)), FetchLands(f))
      == Botched(s, t, StagingBackpressure, s.pool, s.content, s.trail)
  {
    GiveUpSteps(m1, f, t, s.q.latched, n);
    var m3 := m1.(fetches := map[f := Fetch(t, s.q.latched, Lost(StagingBackpressure))]);
    LostSteps(m3, f, t, s.q.latched, StagingBackpressure, ok);
    assert s.q.pending + {t} - {t} == s.q.pending - {t};
  }

  /** The pool refuses, and keeps refusing until the fetch gives up. */
  lemma GiveUpSteps(m: System, f: nat, t: int, sel: Selection, n: nat)
    requires Staging.Valid(m.pool) && m.fetches == map[f := Fetch(t, sel, Started)] && Staging.TryAcquire(m.pool, n).1.None?
    ensures Step(Step(m, FetchAcquires(f, n)), FetchGivesUp(f))
         == m.(fetches := map[f := Fetch(t, sel, Lost(StagingBackpressure))])
  {
    Staging.TryAcquireCorrect(m.pool, n);
    Staging.TryAcquireCorrect(m.pool, 1);
    assert Step(m, FetchAcquires(f, n)) == m;
  }

  /** A lost fetch neither reads nor releases; it lands with its failure. */
  lemma LostSteps(m: System, f: nat, t: int, sel: Selection, e: Status, ok: bool)
    requires Open(m) && m.fetches == map[f := Fetch(t, sel, Lost(e))]
    ensures Step(Step(Step(m, FetchReads(f, ok)), FetchReleases(f)), FetchLands(f))
         == m.(fetches := map[], q := m.q.(pending := m.q.pending - {t}, failed := m.q.failed[t := e]))
  {
    assert Step(m, FetchReads(f, ok)) == m && Step(m, FetchReleases(f)) == m;
    LostStep(m, f, t, sel, e);
  }

  lemma WithBuffer(s: System, m1: System, f: nat, t: int, n: nat, ok: bool)
    requires Staging.InRange(s.pool) && Quiet(s) && f == s.nextFetch && !Tracked(s.q, t) && Staging.TryAcquire(s.pool, n).1.Some?
    requires m1 == Schedule(s, t).(fetches := map[f := Fetch(t, s.q.latched, Started)]) && !s.q.cancelled
    ensures var m2 := Step(m1, FetchAcquires(f, n));
      var (p, r) := Staging.TryAcquire(s.pool, n);
      Step(Step(Step(Step(m2, FetchGivesUp(f)), FetchReads(f, ok)), FetchReleases(f)), FetchLands(f))
      == if ok then Stocked(s, t, r.value, p)
         else Botched(s, t, BackendFailure, ReleaseIfHeld(p, r.value), s.content - {r.value}, s.trail + [(t, s.q.latched)])
  {
    var (p, r) := Staging.TryAcquire(s.pool, n);
    var m2 := Step(m1, FetchAcquires(f, n));
    assert m2 == m1.(pool := p, fetches := map[f := Fetch(t, s.q.latched, Holding(r.value))]);
    AfterAcquire(s, m2, f, t, r.value, ok);
  }

  lemma AfterAcquire(s: System, m2: System, f: nat, t: int, i: nat, ok: bool)
    requires Quiet(s) && f == s.nextFetch && !Tracked(s.q, t) && !s.q.cancelled
    requires m2 == Schedule(s, t).(pool := m2.pool, fetches := map[f := Fetch(t, s.q.latched, Holding(i))])
    ensures
      Step(Step(Step(Step(m2, FetchGivesUp(f)), FetchReads(f, ok)), FetchReleases(f)), FetchLands(f))
      == if ok then Stocked(s, t, i, m2.pool)
         else Botched(s, t, BackendFailure, ReleaseIfHeld(m2.pool, i), s.content - {i}, s.trail + [(t, s.q.latched)])
  {
    assert !Enabled(m2, FetchGivesUp(f));
    assert s.q.pending + {t} - {t} == s.q.pending;
    if ok {
      GoodReadStep(m2, f, t, s.q.latched, i);
      var m4 := AfterGoodRead(m2, f, t, s.q.latched, i);
      assert !Enabled(m4, FetchReleases(f));
      LandingStep(m4, f, t, s.q.latched, i);
    } else {
      BadReadSteps(m2, f, t, s.q.latched, i);
    }
  }

  lemma BadReadSteps(m: System, f: nat, t: int, sel: Selection, i: nat)
    requires Open(m) && m.fetches == map[f := Fetch(t, sel, Holding(i))]
    ensures Step(Step(Step(m, FetchReads(f, false)), FetchReleases(f)), FetchLands(f))
      == m.(fetches := map[], content := m.content - {i}, trail := m.trail + [(t, sel)], pool := ReleaseIfHeld(m.pool, i),
            q := m.q.(pending := m.q.pending - {t}, failed := m.q.failed[t := BackendFailure]))
  {
    var m1 := m.(fetches := map[f := Fetch(t, sel, Spoiled(i))], content := m.content - {i}, trail := m.trail + [(t, sel)]);
    assert Step(m, FetchReads(f, false)) == m1;
    ReleaseStep(m1, f, t, sel, i);
    LostStep(m1.(fetches := map[f := Fetch(t, sel, Lost(BackendFailure))], pool := ReleaseIfHeld(m1.pool, i)), f, t, sel, BackendFailure);
  }

  lemma ReleaseStep(m: System, f: nat, t: int, sel: Selection, i: nat)
    requires m.fetches == map[f := Fetch(t, sel, Spoiled(i))]
    ensures Step(m, FetchReleases(f)) == m.(fetches := map[f := Fetch(t, sel, Lost(BackendFailure))], pool := ReleaseIfHeld(m.pool, i))
  {
  }

  lemma LostStep(m: System, f: nat, t: int, sel: Selection, e: Status)
    requires Open(m) && m.fetches == map[f := Fetch(t, sel, Lost(e))]
    ensures Step(m, FetchLands(f))
         == m.(fetches := map[], q := m.q.(pending := m.q.pending - {t}, failed := m.q.failed[t := e]))
  {
    assert m.fetches - {f} == map[];
  }

  /******* get_buffer and the coordinator's read *******/

  function SyncKick(s: System, t: int, k: int, count: int, d: Backend): System
    decreases count - k
  {
    if k < count then SyncKick(SyncSchedule(s, t + k, d), t, k + 1, count, d) else s
  }

  lemma SyncKickStep(s: System, t: int, k: int, count: int, d: Backend)
    requires k < count
    ensures SyncKick(s, t, k, count, d) == SyncKick(SyncSchedule(s, t + k, d), t, k + 1, count, d)
  {
  }

  datatype Answer = Answer(state: System, status: Status, buf: Option<nat>)

  /** The wait loop of `get_buffer`; `wakes` spurious wakeups happen before the deadline. */
  function SyncLoop(s: System, t: int, sel: Selection, d: Backend, wakes: nat): Answer
    decreases wakes, 1
  {
    if t in s.q.completed then
      if Same(Recorded(s.q, t), sel) then Answer(Take(s, t), Ok, Some(s.q.completed[t]))
      else SyncWait(SyncSchedule(Drop(s, t), t, d), t, sel, d, wakes)
    else SyncWait(s, t, sel, d, wakes)
  }

  function SyncWait(s: System, t: int, sel: Selection, d: Backend, wakes: nat): Answer
    decreases wakes, 0
  {
    if t in s.q.failed then Answer(Consume(s, t), s.q.failed[t], None)
    else if s.q.cancelled then Answer(s, BackendFailure, None)
    else if wakes > 0 then SyncLoop(s, t, sel, d, wakes - 1)
    else var (m, place) := Expiry(s, t); Answer(m, place.status, place.buf)
  }

  function Ahead(s: System, t: int): int {
    if s.depth <= s.total - t then s.depth else s.total - t
  }

  /** `get_buffer` up to its first look at the timestep. */
  function SyncEnter(s: System, t: int, sel: Selection, d: Backend): System {
    var m := s.(q := s.q.(latched := sel, kicked := true));
    if s.q.kicked then m else SyncKick(m, t, 0, Ahead(s, t), d)
  }

  function SyncGet(s: System, t: int, sel: Selection, d: Backend, wakes: nat): Answer {
    var m := SyncEnter(s, t, sel, d);
    if t in m.q.failed then Answer(Consume(m, t), m.q.failed[t], None)
    else if t in m.q.completed && Same(Recorded(m.q, t), sel) then Answer(Take(m, t), Ok, Some(m.q.completed[t]))
    else
      var n := if t in m.q.completed then Drop(m, t) else m;
      SyncLoop(if t in n.q.pending then n else SyncSchedule(n, t, d), t, sel, d, wakes)
  }

  function SyncNext(s: System, t: int, d: Backend): System {
    if t + s.depth >= s.total then s else SyncSchedule(s, t + s.depth, d)
  }

  /** The coordinator's read of one record: get the buffer, then replenish the window. */
  function ReadOne(s: System, t: int, sel: Selection, d: Backend, wakes: nat): Answer {
    var a := SyncGet(s, t, sel, d, wakes);
    if a.status == Ok then a.(state := SyncNext(a.state, t, d)) else a
  }

  /******* cancel_pending *******/

  function Releases(n: nat): seq<Action> {
    if n == 0 then [] else [CancelReleases] + Releases(n - 1)
  }

  /** `cancel_pending` with no other thread around. */
  function Cancel(s: System, order: seq<int>): System {
    Run(s, [CancelBegins(order)] + (Releases(|order|) + [CancelEnds]))
  }

  /** The pool after the staged buffers have been released in the given order. */
  function ReleaseEach(p: Staging.Pool, staged: map<int, nat>, order: seq<int>): Staging.Pool
    requires forall i :: 0 <= i < |order| ==> order[i] in staged
    decreases |order|
  {
    if order == [] then p else ReleaseEach(ReleaseIfHeld(p, staged[order[0]]), staged, order[1..])
  }

  lemma ReleaseOneStep(s: System)
    requires s.closing.Some? && s.closing.value != [] && s.closing.value[0] in s.q.completed
    ensures var t := s.closing.value[0];
      Step(s, CancelReleases)
      == s.(q := Forget(s.q, t), pool := ReleaseIfHeld(s.pool, s.q.completed[t]), closing := Some(s.closing.value[1..]))
  {
  }

  lemma {:induction false} RunReleases(s: System, staged: map<int, nat>, order: seq<int>, rest: seq<Action>) returns (q: Queue)
    requires s.closing == Some(order)
    requires forall i, j :: 0 <= i < j < |order| ==> order[i] < order[j]
    requires forall i :: 0 <= i < |order| ==>
      order[i] in staged && order[i] in s.q.completed && s.q.completed[order[i]] == staged[order[i]]
    ensures q.latched == s.q.latched && q.kicked == s.q.kicked
    ensures Run(s, Releases(|order|) + rest)
         == Run(s.(q := q, pool := ReleaseEach(s.pool, staged, order), closing := Some([])), rest)
    decreases |order|
  {
    if order == [] {
      assert Releases(0) + rest == rest;
      q := s.q;
      assert s == s.(q := s.q, pool := ReleaseEach(s.pool, staged, order), closing := Some([]));
    } else {
      var t, more := order[0], order[1..];
      var m := s.(q := Forget(s.q, t), pool := ReleaseIfHeld(s.pool, s.q.completed[t]), closing := Some(more));
      ReleaseOneStep(s);
      assert forall i :: 0 <= i < |more| ==> more[i] == order[i + 1] && more[i] != t;
      q := RunReleases(m, staged, more, rest);
      assert Releases(|order|) + rest == [CancelReleases] + (Releases(|more|) + rest);
      RunOne(s, CancelReleases, Releases(|more|) + rest);
      assert s.(q := q, pool := ReleaseEach(s.pool, staged, order), closing := Some([]))
          == m.(q := q, pool := ReleaseEach(m.pool, staged, more), closing := Some([]));
    }
  }

  /** A cancellation returns each staged buffer, in key order, and clears the queue. */
  lemma CancelOutcome(s: System, order: seq<int>)
    requires Open(s) && Lists(order, s.q.completed)
    ensures Cancel(s, order)
         == s.(pool := ReleaseEach(s.pool, s.q.completed, order),
               q := Queue(map[], map[], {}, map[], s.q.latched, s.q.kicked, true))
  {
    var m := s.(q := s.q.(cancelled := true, pending := {}), closing := Some(order));
    RunOne(s, CancelBegins(order), Releases(|order|) + [CancelEnds]);
    var q := RunReleases(m, s.q.completed, order, [CancelEnds]);
    LastStep(m.(q := q, pool := ReleaseEach(s.pool, s.q.completed, order), closing := Some([])));
  }

  lemma LastStep(s: System)
    requires s.closing == Some([])
    ensures Run(s, [CancelEnds]) == s.(q := Queue(map[], map[], {}, map[], s.q.latched, s.q.kicked, true), closing := None)
  {
    assert [CancelEnds] + [] == [CancelEnds];
    RunOne(s, CancelEnds, []);
  }

  /******* Sequential scan *******/

  /** Exactly the timesteps [lo, hi) are tracked, all staged with the selection in use. */
  ghost predicate Scanning(s: System, lo: int, hi: int, sel: Selection) {
    && Quiet(s) && s.q.failed == map[] && !s.q.cancelled && s.q.kicked && s.q.latched == sel
    && (forall t :: t in s.q.completed <==> lo <= t < hi)
    && (forall t :: t in s.q.completed ==> Recorded(s.q, t) == sel)
  }

  /** The driver reads of [lo, hi), in increasing order. */
  function InOrder(sel: Selection, lo: int, hi: int): seq<(int, Selection)>
    decreases hi - lo
  {
    if lo >= hi then [] else InOrder(sel, lo, hi - 1) + [(hi - 1, sel)]
  }

  /** The pool can hand out `n` more buffers. */
  ghost predicate Roomy(s: System, n: int) {
    Staging.Valid(s.pool) && Staging.Room(s.pool) >= n
  }

  /** A state in the middle of a scan that began at `first`. */
  ghost predicate Scanned(s: System, first: int, lo: int, hi: int, sel: Selection) {
    Scanning(s, lo, hi, sel) && s.trail == InOrder(sel, first, hi)
  }

  predicate SameLimits(s: System, s': System) { s'.depth == s.depth && s'.total == s.total }

  lemma AcquireLeavesRoom(p: Staging.Pool, n: nat)
    requires Staging.Valid(p) && Staging.Room(p) > 0
    ensures var (p', r) := Staging.TryAcquire(p, n); r.Some? && Staging.Valid(p') && Staging.Room(p') == Staging.Room(p) - 1
  {
    Staging.TryAcquireCorrect(p, n);
  }

  lemma StockedScans(s: System, first: int, lo: int, hi: int, sel: Selection, i: nat, p: Staging.Pool)
    requires Scanned(s, first, lo, hi, sel) && first <= hi && lo <= hi
    ensures Scanned(Stocked(s, hi, i, p), first, lo, hi + 1, sel)
  {
    var m := Stocked(s, hi, i, p);
    forall t | t in m.q.completed ensures Recorded(m.q, t) == sel {
      if t != hi { assert Recorded(s.q, t) == sel; }
    }
  }

  /** A fetch of the timestep just past the window extends the window by one. */
  lemma StockOne(s: System, first: int, lo: int, hi: int, sel: Selection, d: Backend, room: int)
    requires Scanned(s, first, lo, hi, sel) && first <= hi && lo <= hi && Roomy(s, room + 1) && 0 <= room && d.ok(|s.trail|)
    ensures var m := SyncSchedule(s, hi, d); Scanned(m, first, lo, hi + 1, sel) && Roomy(m, room) && SameLimits(s, m)
  {
    var n := d.bytes(s.q.latched);
    AcquireLeavesRoom(s.pool, n);
    var (p, r) := Staging.TryAcquire(s.pool, n);
    SyncScheduleOutcome(s, hi, d);
    assert SyncSchedule(s, hi, d) == Stocked(s, hi, r.value, p);
    StockedScans(s, first, lo, hi, sel, r.value, p);
  }

  /** What every single fetch of a window keeps, the window's opening achieves. */
  lemma {:induction false} KickIterates(inv: (System, int) -> bool, s: System, t: int, k: int, count: int, d: Backend)
    requires 0 <= k <= count && inv(s, t + k)
    requires forall m, u :: t <= u < t + count && inv(m, u) ==> inv(SyncSchedule(m, u, d), u + 1)
    ensures inv(SyncKick(s, t, k, count, d), t + count)
    decreases count - k
  {
    if k < count {
      KickIterates(inv, SyncSchedule(s, t + k, d), t, k + 1, count, d);
    }
  }

  /** [t, u) is staged, and the pool has room up to `end` and for `room` more. */
  ghost function StockedTo(s: System, t: int, end: int, sel: Selection, room: int): (System, int) -> bool {
    (m: System, u: int) => Scanned(m, t, t, u, sel) && Roomy(m, room + end - u) && SameLimits(s, m)
  }

  lemma KickStocks(s: System, t: int, count: int, sel: Selection, d: Backend, room: int)
    requires 0 <= count && 0 <= room && StockedTo(s, t, t + count, sel, room)(s, t) && forall n :: d.ok(n)
    ensures StockedTo(s, t, t + count, sel, room)(SyncKick(s, t, 0, count, d), t + count)
  {
    var inv := StockedTo(s, t, t + count, sel, room);
    forall m, u | t <= u < t + count && inv(m, u) ensures inv(SyncSchedule(m, u, d), u + 1) {
      StockOne(m, t, t, u, sel, d, room + t + count - u - 1);
    }
    KickIterates(inv, s, t, 0, count, d);
  }

  function Min(a: int, b: int): int { if a <= b then a else b }

  lemma TakeScans(s: System, first: int, t: int, hi: int, sel: Selection)
    requires Scanned(s, first, t, hi, sel) && t < hi
    ensures t in s.q.completed && Scanned(Take(s, t), first, t + 1, hi, sel) && Take(s, t).trail == s.trail
  {
    var m := Take(s, t);
    forall u | u in m.q.completed ensures Recorded(m.q, u) == sel {
      assert Recorded(s.q, u) == sel;
    }
  }

  /** The scan stands before timestep `t`: the window behind it is staged and the pool has
      room for the rest. */
  ghost predicate Before(s: System, first: int, t: int, sel: Selection, depth: nat, total: int) {
    && s.depth == depth && s.total == total
    && Scanned(s, first, t, Min(t + depth, total), sel) && Roomy(s, total - Min(t + depth, total))
  }

  /** With `t` staged, a read is answered from the staged data and the window moves on. */
  lemma ServeAndReplenish(s: System, first: int, t: int, sel: Selection, d: Backend, depth: nat, total: int)
    requires first <= t < total && 1 <= depth && Before(s, first, t, sel, depth, total) && forall n :: d.ok(n)
    ensures t in s.q.completed && Before(SyncNext(Take(s, t), t, d), first, t + 1, sel, depth, total)
  {
    TakeScans(s, first, t, Min(t + depth, total), sel);
    Replenish(Take(s, t), first, t, sel, d, depth, total);
  }

  lemma Replenish(m: System, first: int, t: int, sel: Selection, d: Backend, depth: nat, total: int)
    requires first <= t < total && 1 <= depth && m.depth == depth && m.total == total && forall n :: d.ok(n)
    requires Scanned(m, first, t + 1, Min(t + depth, total), sel) && Roomy(m, total - Min(t + depth, total))
    ensures Before(SyncNext(m, t, d), first, t + 1, sel, depth, total)
  {
    if t + depth < total {
      StockOne(m, first, t + 1, t + depth, sel, d, total - (t + 1 + depth));
    }
  }

  /** `n` reads with consecutive timesteps. */
  function Iterate(read: (System, int) -> System, s: System, first: int, n: nat): System {
    if n == 0 then s else read(Iterate(read, s, first, n - 1), first + n - 1)
  }

  lemma {:induction false} IterateKeeps(read: (System, int) -> System, inv: (System, int) -> bool, s: System, first: int, last: int, n: nat)
    requires 1 <= n <= last - first && inv(read(s, first), first + 1)
    requires forall m, t :: first < t < last && inv(m, t) ==> inv(read(m, t), t + 1)
    ensures inv(Iterate(read, s, first, n), first + n)
  {
    if n == 1 {
      assert Iterate(read, s, first, 0) == s;
    } else {
      IterateKeeps(read, inv, s, first, last, n - 1);
    }
  }

  /** The coordinator's read as a function of state and timestep. */
  function Reading(sel: Selection, d: Backend, wakes: nat): (System, int) -> System {
    (m: System, t: int) => ReadOne(m, t, sel, d, wakes).state
  }

  /** The state after `n` reads that start at timestep `first`. */
  function Scan(s: System, first: int, n: nat, sel: Selection, d: Backend, wakes: nat): System {
    Iterate(Reading(sel, d, wakes), s, first, n)
  }

  /** The first read opens the window. */
  lemma FirstWindow(m: System, first: int, sel: Selection, d: Backend, depth: nat, total: int)
    requires m.depth == depth && m.total == total && 1 <= depth && first < total && forall n :: d.ok(n)
    requires Scanned(m, first, first, first, sel) && Roomy(m, total - first)
    ensures Before(SyncKick(m, first, 0, Min(depth, total - first), d), first, first, sel, depth, total)
  {
    KickStocks(m, first, Min(depth, total - first), sel, d, total - first - Min(depth, total - first));
  }

  lemma FirstEnter(pool: Staging.Pool, others: set<nat>, depth: nat, total: int, first: int, sel: Selection, d: Backend)
    requires Staging.Valid(pool) && 1 <= depth && first < total && Staging.Room(pool) >= total - first && forall n :: d.ok(n)
    ensures Before(SyncEnter(Init(pool, others, depth, total), first, sel, d), first, first, sel, depth, total)
  {
    var s := Init(pool, others, depth, total);
    var m := s.(q := s.q.(latched := sel, kicked := true));
    FirstWindow(m, first, sel, d, depth, total);
    assert Ahead(s, first) == Min(depth, total - first);
  }

  lemma FirstRead(pool: Staging.Pool, others: set<nat>, depth: nat, total: int, first: int, sel: Selection, d: Backend, wakes: nat)
    requires Staging.Valid(pool) && 1 <= depth && first < total && Staging.Room(pool) >= total - first && forall n :: d.ok(n)
    ensures var s := Init(pool, others, depth, total); var m := SyncEnter(s, first, sel, d);
      && Before(m, first, first, sel, depth, total)
      && first in m.q.completed
      && SyncGet(s, first, sel, d, wakes) == Answer(Take(m, first), Ok, Some(m.q.completed[first]))
  {
    FirstEnter(pool, others, depth, total, first, sel, d);
    FoundIsTaken(Init(pool, others, depth, total), first, sel, d, wakes);
  }

  /** A timestep staged with the requested selection is handed out at once. */
  lemma FoundIsTaken(s: System, t: int, sel: Selection, d: Backend, wakes: nat)
    requires var m := SyncEnter(s, t, sel, d); t in m.q.completed && t !in m.q.failed && Recorded(m.q, t) == sel
    ensures var m := SyncEnter(s, t, sel, d); SyncGet(s, t, sel, d, wakes) == Answer(Take(m, t), Ok, Some(m.q.completed[t]))
  {
  }

  /** A read in the middle of a scan finds its record staged. */
  lemma LaterRead(s: System, first: int, t: int, sel: Selection, d: Backend, wakes: nat, depth: nat, total: int)
    requires first <= t < total && 1 <= depth && Before(s, first, t, sel, depth, total)
    ensures t in s.q.completed && SyncGet(s, t, sel, d, wakes) == Answer(Take(s, t), Ok, Some(s.q.completed[t]))
  {
    assert SyncEnter(s, t, sel, d) == s;
    assert Scanning(s, t, Min(t + depth, total), sel);
    FoundIsTaken(s, t, sel, d, wakes);
  }

  /** What one read of a scan achieves: it succeeds and leaves the scan standing before the
      next timestep. */
  ghost predicate Advances(s: System, first: int, t: int, sel: Selection, d: Backend, wakes: nat, depth: nat, total: int) {
    && ReadOne(s, t, sel, d, wakes).status == Ok
    && Before(ReadOne(s, t, sel, d, wakes).state, first, t + 1, sel, depth, total)
  }

  lemma LaterReadAdvances(s: System, first: int, t: int, sel: Selection, d: Backend, wakes: nat, depth: nat, total: int)
    requires first <= t < total && 1 <= depth && Before(s, first, t, sel, depth, total) && forall n :: d.ok(n)
    ensures Advances(s, first, t, sel, d, wakes, depth, total)
  {
    LaterRead(s, first, t, sel, d, wakes, depth, total);
    ServeAndReplenish(s, first, t, sel, d, depth, total);
  }

  lemma FirstReadAdvances(pool: Staging.Pool, others: set<nat>, depth: nat, total: int, first: int, sel: Selection, d: Backend, wakes: nat)
    requires Staging.Valid(pool) && 1 <= depth && first < total && Staging.Room(pool) >= total - first && forall n :: d.ok(n)
    ensures Advances(Init(pool, others, depth, total), first, first, sel, d, wakes, depth, total)
  {
    FirstRead(pool, others, depth, total, first, sel, d, wakes);
    ServeAndReplenish(SyncEnter(Init(pool, others, depth, total), first, sel, d), first, first, sel, d, depth, total);
  }

  ghost function Standing(first: int, sel: Selection, depth: nat, total: int): (System, int) -> bool {
    (m: System, t: int) => Before(m, first, t, sel, depth, total)
  }

  lemma ReadingKeepsStanding(first: int, sel: Selection, d: Backend, wakes: nat, depth: nat, total: int)
    requires 1 <= depth && forall k :: d.ok(k)
    ensures forall m, t :: first < t < total && Standing(first, sel, depth, total)(m, t) ==>
      Standing(first, sel, depth, total)(Reading(sel, d, wakes)(m, t), t + 1)
  {
    forall m, t | first < t < total && Standing(first, sel, depth, total)(m, t)
      ensures Standing(first, sel, depth, total)(Reading(sel, d, wakes)(m, t), t + 1)
    {
      LaterReadAdvances(m, first, t, sel, d, wakes, depth, total);
    }
  }

  lemma ScanStands(s: System, m: System, r: System, first: int, n: nat, sel: Selection, d: Backend, wakes: nat, depth: nat, total: int)
    requires 1 <= depth && 1 <= n <= total - first && forall k :: d.ok(k)
    requires m == Reading(sel, d, wakes)(s, first) && Standing(first, sel, depth, total)(m, first + 1)
    requires r == Scan(s, first, n, sel, d, wakes)
    ensures Standing(first, sel, depth, total)(r, first + n)
  {
    ReadingKeepsStanding(first, sel, d, wakes, depth, total);
    IterateKeeps(Reading(sel, d, wakes), Standing(first, sel, depth, total), s, first, total, n);
  }

  lemma BeforeMeans(s: System, first: int, t: int, sel: Selection, depth: nat, total: int)
    requires Before(s, first, t + 1, sel, depth, total)
    ensures s.trail == InOrder(sel, first, Min(t + depth, total - 1) + 1)
    ensures forall u :: Tracked(s.q, u) <==> t < u <= Min(t + depth, total - 1)
  {
  }

  lemma ScanFromInit(pool: Staging.Pool, others: set<nat>, depth: nat, total: int,
                     first: int, n: nat, sel: Selection, d: Backend, wakes: nat)
    requires Staging.Valid(pool) && 1 <= depth && 1 <= n <= total - first && Staging.Room(pool) >= total - first
    requires forall k :: d.ok(k)
    ensures Before(Scan(Init(pool, others, depth, total), first, n, sel, d, wakes), first, first + n, sel, depth, total)
  {
    FirstReadAdvances(pool, others, depth, total, first, sel, d, wakes);
    AdvancingStands(Init(pool, others, depth, total), first, n, sel, d, wakes, depth, total);
  }

  lemma StandFrom(s: System, m: System, r: System, first: int, n: nat, sel: Selection, d: Backend, wakes: nat, depth: nat, total: int)
    requires 1 <= depth && 1 <= n <= total - first && forall k :: d.ok(k)
    requires m == Reading(sel, d, wakes)(s, first) && Before(m, first, first + 1, sel, depth, total)
    requires r == Scan(s, first, n, sel, d, wakes)
    ensures Before(r, first, first + n, sel, depth, total)
  {
    StandingIs(m, first, first + 1, sel, depth, total);
    ScanStands(s, m, r, first, n, sel, d, wakes, depth, total);
    StandingIs(r, first, first + n, sel, depth, total);
  }

  lemma StandingIs(m: System, first: int, t: int, sel: Selection, depth: nat, total: int)
    ensures Standing(first, sel, depth, total)(m, t) <==> Before(m, first, t, sel, depth, total)
  {
  }

  lemma AdvancingStands(s: System, first: int, n: nat, sel: Selection, d: Backend, wakes: nat, depth: nat, total: int)
    requires 1 <= depth && 1 <= n <= total - first && forall k :: d.ok(k)
    requires Advances(s, first, first, sel, d, wakes, depth, total)
    ensures Before(Scan(s, first, n, sel, d, wakes), first, first + n, sel, depth, total)
  {
    StandFrom(s, ReadOne(s, first, sel, d, wakes).state, Scan(s, first, n, sel, d, wakes), first, n, sel, d, wakes, depth, total);
  }

  /** In synchronous mode, with one selection, a driver that does not fail and a pool with
      room for the records: after reading first, ..., t the driver has read exactly first,
      ..., min(t + depth, total - 1), once each in increasing order, and exactly
      (t, min(t + depth, total - 1)] is tracked. */
  lemma SequentialScan(pool: Staging.Pool, others: set<nat>, depth: nat, total: int,
                       first: int, n: nat, sel: Selection, d: Backend, wakes: nat)
    requires Staging.Valid(pool) && 1 <= depth && 1 <= n <= total - first && Staging.Room(pool) >= total - first
    requires forall k :: d.ok(k)
    ensures var t := first + n - 1; var s := Scan(Init(pool, others, depth, total), first, n, sel, d, wakes);
      && s.trail == InOrder(sel, first, Min(t + depth, total - 1) + 1)
      && (forall u :: Tracked(s.q, u) <==> t < u <= Min(t + depth, total - 1))
  {
    ScanFromInit(pool, others, depth, total, first, n, sel, d, wakes);
    BeforeMeans(Scan(Init(pool, others, depth, total), first, n, sel, d, wakes), first, first + n - 1, sel, depth, total);
  }

  /** In such a scan every read succeeds, and each one after the first finds its record
      staged already: it only moves that buffer to the caller. */
  lemma ScanServesFromStage(pool: Staging.Pool, others: set<nat>, depth: nat, total: int,
                            first: int, n: nat, sel: Selection, d: Backend, wakes: nat)
    requires Staging.Valid(pool) && 1 <= depth && 1 <= n < total - first && Staging.Room(pool) >= total - first
    requires forall k :: d.ok(k)
    ensures var s := Scan(Init(pool, others, depth, total), first, n, sel, d, wakes); var t := first + n;
      t in s.q.completed && SyncGet(s, t, sel, d, wakes) == Answer(Take(s, t), Ok, Some(s.q.completed[t]))
  {
    ScanFromInit(pool, others, depth, total, first, n, sel, d, wakes);
    LaterRead(Scan(Init(pool, others, depth, total), first, n, sel, d, wakes), first, first + n, sel, d, wakes, depth, total);
  }
}
