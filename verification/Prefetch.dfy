/**
 The prefetch queue of one variable: staged, pending and failed timesteps, a latched
 selection, replacement of stale windows, and cancellation, used by any number of
 readers and background fetches at once.

 An action is one critical section of the queue's mutex, or one step of a fetch outside
 it, so a run of actions covers every interleaving.  A fetch that the calling thread
 performs itself (no worker pool) is one of these interleavings.
 */
module Prefetch {
  import opened Common
  import opened Selections
  import Staging

  /******* State *******/

  /** The fields guarded by the queue's mutex. */
  datatype Queue = Queue(
    completed: map<int, nat>,   // timestep -> staged buffer
    fetched: map<int, Box>,     // timestep -> window it was read with, absent for a full record
    pending: set<int>,
    failed: map<int, Status>,
    latched: Selection,
    kicked: bool,
    cancelled: bool)

  /** How far a fetch has come. */
  datatype Progress =
    | Dispatched            // task created, not yet running
    | Started               // passed the cancellation check
    | Holding(buf: nat)     // staging buffer acquired
    | Filled(buf: nat)      // driver read succeeded
    | Spoiled(buf: nat)     // driver read failed; buffer still held
    | Lost(error: Status)   // holds nothing; about to record the failure

  datatype Fetch = Fetch(timestep: int, sel: Selection, progress: Progress)

  /** Where a `get_buffer` call stands between two critical sections. */
  datatype Place =
    | Kicking(next: int, count: int)
    | Checking
    | Scheduling
    | Looping
    | Rescheduling
    | Tailing
    | Waiting
    | Done(status: Status, buf: Option<nat>, compared: bool, was: Option<(int, Selection)>)

  datatype Reader = Reader(timestep: int, sel: Selection, place: Place)

  /** `handed` are the buffers returned by `get_buffer` and not yet released, `others` the
      buffers of the pool's other users.  `content` and `trail` are history: the timestep
      and selection that each buffer was last read with, and the driver's reads so far.
      `closing` is set while `cancel_pending` holds the mutex: the staged timesteps it has
      still to release. */
  datatype System = System(
    q: Queue,
    pool: Staging.Pool,
    fetches: map<nat, Fetch>,
    nextFetch: nat,
    handed: set<nat>,
    others: set<nat>,
    content: map<nat, (int, Selection)>,
    trail: seq<(int, Selection)>,
    readers: map<nat, Reader>,
    depth: nat,
    total: int,
    closing: Option<seq<int>>)

  const EMPTY_QUEUE := Queue(map[], map[], {}, map[], None, false, false)

  function Init(pool: Staging.Pool, others: set<nat>, depth: nat, total: int): System {
    System(EMPTY_QUEUE, pool, map[], 0, {}, others, map[], [], map[], depth, total, None)
  }

  /** The selection that the queue has on record for a staged timestep. */
  function Recorded(q: Queue, t: int): Selection {
    if t in q.fetched then Some(q.fetched[t]) else None
  }

  predicate Tracked(q: Queue, t: int) {
    t in q.pending || t in q.completed || t in q.failed
  }

  /******* Critical sections *******/

  /** `schedule_fetch`: create a fetch with the latched selection unless the timestep is
      tracked already. */
  function Schedule(s: System, t: int): System {
    if s.q.cancelled || Tracked(s.q, t) then s
    else s.(q := s.q.(pending := s.q.pending + {t}),
            fetches := s.fetches[s.nextFetch := Fetch(t, s.q.latched, Dispatched)],
            nextFetch := s.nextFetch + 1)
  }

  function Forget(q: Queue, t: int): Queue {
    q.(completed := q.completed - {t}, fetched := q.fetched - {t})
  }

  /** Hand the staged buffer of `t` to the caller. */
  function Take(s: System, t: int): System
    requires t in s.q.completed
  {
    s.(q := Forget(s.q, t), handed := s.handed + {s.q.completed[t]})
  }

  /** Drop the staged buffer of `t`, whose window is stale. */
  function Drop(s: System, t: int): System
    requires t in s.q.completed
  {
    s.(q := Forget(s.q, t), pool := ReleaseIfHeld(s.pool, s.q.completed[t]))
  }

  /** The pool refuses (asserts) a release of an unreferenced buffer. */
  function ReleaseIfHeld(p: Staging.Pool, b: nat): Staging.Pool {
    if Staging.InRange(p) && Staging.Referenced(p, b) then Staging.Release(p, b) else p
  }

  function Consume(s: System, t: int): System
    requires t in s.q.failed
  {
    s.(q := s.q.(failed := s.q.failed - {t}))
  }

  function Content(s: System, b: nat): Option<(int, Selection)> {
    if b in s.content then Some(s.content[b]) else None
  }

  /** The outcome of a call that finds `t` staged with the selection it asked for. */
  function Served(s: System, t: int, compared: bool): Place
    requires t in s.q.completed
  {
    Done(Ok, Some(s.q.completed[t]), compared, Content(s, s.q.completed[t]))
  }

  function Failing(status: Status): Place { Done(status, None, false, None) }

  /** The part of the wait loop after the staged check. */
  function Tail(s: System, t: int): (System, Place) {
    if t in s.q.failed then (Consume(s, t), Failing(s.q.failed[t]))
    else if s.q.cancelled then (s, Failing(BackendFailure))
    else (s, Waiting)
  }

  /** One critical section of `get_buffer`: the new state and the caller's next place. */
  function Section(s: System, r: Reader): (System, Place) {
    var t := r.timestep;
    match r.place
    case Kicking(k, count) =>
      if k < count then (Schedule(s, t + k), Kicking(k + 1, count)) else (s, Checking)
    case Checking =>
      if t in s.q.failed then (Consume(s, t), Failing(s.q.failed[t]))
      else if t in s.q.completed && Same(Recorded(s.q, t), r.sel) then (Take(s, t), Served(s, t, true))
      else
        var m := if t in s.q.completed then Drop(s, t) else s;
        (m, if t in m.q.pending then Looping else Scheduling)
    case Scheduling => (Schedule(s, t), Looping)
    case Looping =>
      if t in s.q.completed then
        if Same(Recorded(s.q, t), r.sel) then (Take(s, t), Served(s, t, true))
        else (Drop(s, t), Rescheduling)
      else Tail(s, t)
    case Rescheduling => (Schedule(s, t), Tailing)
    case Tailing => Tail(s, t)
    case Waiting => (s, Looping)  // woken up
    case Done(_, _, _, _) => (s, r.place)
  }

  /** The deadline passes: one last look, which does not compare selections. */
  function Expiry(s: System, t: int): (System, Place) {
    if t in s.q.completed then
      (s.(q := s.q.(completed := s.q.completed - {t}), handed := s.handed + {s.q.completed[t]}), Served(s, t, false))
    else if t in s.q.failed then (Consume(s, t), Failing(s.q.failed[t]))
    else (s, Failing(Timeout))
  }

  /** `get_buffer` begins: latch the selection and open the look-ahead window on first use. */
  function Enter(s: System, id: nat, t: int, sel: Selection): System {
    var ahead := s.total - t;
    var count := if s.depth <= ahead then s.depth else ahead;
    var place := if s.q.kicked then Checking else Kicking(0, count);
    s.(q := s.q.(latched := sel, kicked := true), readers := s.readers[id := Reader(t, sel, place)])
  }

  function Move(s: System, id: nat): System
    requires id in s.readers
  {
    var (m, place) := Section(s, s.readers[id]);
    m.(readers := m.readers[id := s.readers[id].(place := place)])
  }

  function Expire(s: System, id: nat): System
    requires id in s.readers
  {
    var (m, place) := Expiry(s, s.readers[id].timestep);
    m.(readers := m.readers[id := s.readers[id].(place := place)])
  }

  /** `cancel_pending` releases one staged buffer; other users of the pool may act before
      the next one. */
  function CancelOne(s: System): System
    requires s.closing.Some? && s.closing.value != []
  {
    var t := s.closing.value[0];
    var m := if t in s.q.completed then Drop(s, t) else s;
    m.(closing := Some(s.closing.value[1..]))
  }

  /** `order` is the order in which the ordered map `m` lists its keys. */
  predicate Lists(order: seq<int>, m: map<int, nat>) {
    && (forall i, j :: 0 <= i < j < |order| ==> order[i] < order[j])
    && (forall i :: 0 <= i < |order| ==> order[i] in m)
    && (forall t :: t in m ==> t in order)
  }

  /** A fetch ends by recording its buffer or its failure. */
  function Land(s: System, f: nat): System
    requires f in s.fetches && (s.fetches[f].progress.Filled? || s.fetches[f].progress.Lost?)
  {
    var fetch := s.fetches[f];
    var t := fetch.timestep;
    var q := s.q.(pending := s.q.pending - {t});
    s.(fetches := s.fetches - {f},
       q := if fetch.progress.Lost? then q.(failed := q.failed[t := fetch.progress.error])
            else q.(completed := q.completed[t := fetch.progress.buf],
                    fetched := if fetch.sel.Some? then q.fetched[t := fetch.sel.value] else q.fetched - {t}))
  }

  /******* Actions *******/

  datatype Action =
    | Enters(reader: nat, timestep: int, sel: Selection)
    | Moves(reader: nat)
    | Expires(reader: nat)
    | WarmsUp                         // schedule_initial begins
    | Schedules(timestep: int)        // one call of schedule_fetch by schedule_next or schedule_initial
    | FetchStarts(fetch: nat)
    | FetchAcquires(fetch: nat, required: nat)
    | FetchGivesUp(fetch: nat)        // the pool timed out
    | FetchReads(fetch: nat, ok: bool)
    | FetchReleases(fetch: nat)
    | FetchLands(fetch: nat)
    | CancelBegins(order: seq<int>)
    | CancelReleases
    | CancelEnds
    | HandedReleases(slot: nat)
    | OtherAcquires(required: nat)
    | OtherReleases(slot: nat)

  predicate FetchAt(s: System, f: nat, p: Progress) {
    f in s.fetches && s.fetches[f].progress == p
  }

  /** The queue's mutex is not held by a cancellation. */
  predicate Open(s: System) { s.closing.None? }

  predicate Enabled(s: System, a: Action) {
    match a
    case Enters(id, _, _) => Open(s) && (id !in s.readers || s.readers[id].place.Done?)
    case Moves(id) => Open(s) && id in s.readers
    case Expires(id) => Open(s) && id in s.readers && s.readers[id].place.Waiting?
    case WarmsUp => Open(s)
    case Schedules(_) => Open(s)
    case FetchStarts(f) => Open(s) && FetchAt(s, f, Dispatched)
    case FetchAcquires(f, _) => FetchAt(s, f, Started) && Staging.InRange(s.pool)
    case FetchGivesUp(f) => FetchAt(s, f, Started) && Staging.InRange(s.pool) && Staging.TryAcquire(s.pool, 1).1.None?
    case FetchReads(f, _) => f in s.fetches && s.fetches[f].progress.Holding?
    case FetchReleases(f) => f in s.fetches && s.fetches[f].progress.Spoiled?
    case FetchLands(f) => Open(s) && f in s.fetches && (s.fetches[f].progress.Filled? || s.fetches[f].progress.Lost?)
    case CancelBegins(order) => Open(s) && Lists(order, s.q.completed)
    case CancelReleases => s.closing.Some? && s.closing.value != []
    case CancelEnds => s.closing == Some([])
    case HandedReleases(b) => b in s.handed
    case OtherAcquires(_) => Staging.InRange(s.pool)
    case OtherReleases(b) => b in s.others
  }

  function SetProgress(s: System, f: nat, p: Progress): System
    requires f in s.fetches
  {
    s.(fetches := s.fetches[f := s.fetches[f].(progress := p)])
  }

  function Apply(s: System, a: Action): System
    requires Enabled(s, a)
  {
    match a
    case Enters(id, t, sel) => Enter(s, id, t, sel)
    case Moves(id) => Move(s, id)
    case Expires(id) => Expire(s, id)
    case WarmsUp => s.(q := s.q.(kicked := true))
    case Schedules(t) => Schedule(s, t)
    case FetchStarts(f) =>
      if s.q.cancelled then s.(fetches := s.fetches - {f}, q := s.q.(pending := s.q.pending - {s.fetches[f].timestep}))
      else SetProgress(s, f, Started)
    case FetchAcquires(f, n) =>
      var (p, r) := Staging.TryAcquire(s.pool, n);
      if r.None? then s else SetProgress(s.(pool := p), f, Holding(r.value))
    case FetchGivesUp(f) => SetProgress(s, f, Lost(StagingBackpressure))
    case FetchReads(f, ok) =>
      var b := s.fetches[f].progress.buf;
      var what := (s.fetches[f].timestep, s.fetches[f].sel);
      var m := s.(trail := s.trail + [what]);
      if ok then SetProgress(m.(content := s.content[b := what]), f, Filled(b))
      else SetProgress(m.(content := s.content - {b}), f, Spoiled(b))
    case FetchReleases(f) =>
      SetProgress(s.(pool := ReleaseIfHeld(s.pool, s.fetches[f].progress.buf)), f, Lost(BackendFailure))
    case FetchLands(f) => Land(s, f)
    case CancelBegins(order) => s.(q := s.q.(cancelled := true, pending := {}), closing := Some(order))
    case CancelReleases => CancelOne(s)
    case CancelEnds => s.(q := Queue(map[], map[], {}, map[], s.q.latched, s.q.kicked, true), closing := None)
    case HandedReleases(b) => s.(pool := ReleaseIfHeld(s.pool, b), handed := s.handed - {b})
    case OtherAcquires(n) =>
      var (p, r) := Staging.TryAcquire(s.pool, n);
      if r.None? then s else s.(pool := p, others := s.others + {r.value})
    case OtherReleases(b) => s.(pool := ReleaseIfHeld(s.pool, b), others := s.others - {b})
  }

  function Step(s: System, a: Action): System {
    if Enabled(s, a) then Apply(s, a) else s
  }

  function Run(s: System, actions: seq<Action>): System
    decreases |actions|
  {
    if actions == [] then s else Run(Step(s, actions[0]), actions[1..])
  }

  /******* Invariant: what is tracked *******/

  /** Running fetches have distinct timesteps, none of them staged or failed; before
      cancellation they are exactly the pending ones; and no timestep is both staged and
      failed. */
  ghost predicate TrackingSound(s: System) {
    && (forall f :: f in s.fetches ==>
          f < s.nextFetch && s.fetches[f].timestep !in s.q.completed && s.fetches[f].timestep !in s.q.failed)
    && (forall f, g :: f in s.fetches && g in s.fetches && f != g ==> s.fetches[f].timestep != s.fetches[g].timestep)
    && (forall t :: t in s.q.completed ==> t !in s.q.failed)
    && (!s.q.cancelled ==> forall f :: f in s.fetches ==> s.fetches[f].timestep in s.q.pending)
    && (!s.q.cancelled ==> forall t :: t in s.q.pending ==> Fetching(s, t))
    && (s.q.cancelled ==> s.q.pending == {})
  }

  ghost predicate Fetching(s: System, t: int) {
    exists f :: f in s.fetches && s.fetches[f].timestep == t
  }

  lemma ScheduleKeepsTracking(s: System, t: int)
    requires TrackingSound(s)
    ensures TrackingSound(Schedule(s, t))
  {
    var s' := Schedule(s, t);
    if s' != s {
      assert !s.q.cancelled && !Tracked(s.q, t);
      assert s.nextFetch !in s.fetches;
      assert s'.fetches[s.nextFetch].timestep == t;
      forall u | u in s'.q.pending ensures Fetching(s', u) {
        if u != t {
          var f :| f in s.fetches && s.fetches[f].timestep == u;
          assert s'.fetches[f].timestep == u;
        }
      }
    }
  }

  /** At most staged and failed entries are removed. */
  ghost predicate Forgets(s: System, s': System) {
    && s'.fetches == s.fetches && s'.nextFetch == s.nextFetch
    && s'.q.pending == s.q.pending && s'.q.cancelled == s.q.cancelled
    && s'.q.completed.Keys <= s.q.completed.Keys && s'.q.failed.Keys <= s.q.failed.Keys
  }

  lemma ForgettingKeepsTracking(s: System, s': System)
    requires TrackingSound(s) && Forgets(s, s')
    ensures TrackingSound(s')
  {
    forall t | !s'.q.cancelled && t in s'.q.pending ensures Fetching(s', t) {
      assert Fetching(s, t);
      var f :| f in s.fetches && s.fetches[f].timestep == t;
      assert s'.fetches[f].timestep == t;
    }
  }

  lemma ProgressKeepsTracking(s: System, s': System, f: nat, p: Progress)
    requires TrackingSound(s) && f in s.fetches && s'.fetches == s.fetches[f := s.fetches[f].(progress := p)]
    requires s'.nextFetch == s.nextFetch && s'.q == s.q
    ensures TrackingSound(s')
  {
    forall t | !s'.q.cancelled && t in s'.q.pending ensures Fetching(s', t) {
      assert Fetching(s, t);
      var g :| g in s.fetches && s.fetches[g].timestep == t;
      assert s'.fetches[g].timestep == t;
    }
  }

  /** A fetch leaves the board; its timestep is staged, failed or (after cancellation) gone. */
  lemma LeavingKeepsTracking(s: System, s': System, f: nat)
    requires TrackingSound(s) && f in s.fetches && s'.fetches == s.fetches - {f} && s'.nextFetch == s.nextFetch
    requires s'.q.cancelled == s.q.cancelled && s'.q.pending == s.q.pending - {s.fetches[f].timestep}
    requires s'.q.completed.Keys <= s.q.completed.Keys + {s.fetches[f].timestep}
    requires s'.q.failed.Keys <= s.q.failed.Keys + {s.fetches[f].timestep}
    requires forall t :: t in s'.q.completed ==> t !in s'.q.failed
    ensures TrackingSound(s')
  {
    forall t | !s'.q.cancelled && t in s'.q.pending ensures Fetching(s', t) {
      assert Fetching(s, t);
      var g :| g in s.fetches && s.fetches[g].timestep == t;
      assert s'.fetches[g].timestep == t;
    }
  }

  predicate SchedulesAt(r: Reader) {
    (r.place.Kicking? && r.place.next < r.place.count) || r.place.Scheduling? || r.place.Rescheduling?
  }

  /** A section either schedules one timestep or only removes entries. */
  lemma SectionShape(s: System, r: Reader)
    ensures var m := Section(s, r).0;
      if SchedulesAt(r) then m == Schedule(s, if r.place.Kicking? then r.timestep + r.place.next else r.timestep)
      else Forgets(s, m)
  {
    var t := r.timestep;
    if t in s.q.failed { ConsumeForgets(s, t); }
    if t in s.q.completed { TakeForgets(s, t); DropForgets(s, t); }
  }

  lemma ConsumeForgets(s: System, t: int)
    requires t in s.q.failed
    ensures Forgets(s, Consume(s, t))
  {
  }

  lemma TakeForgets(s: System, t: int)
    requires t in s.q.completed
    ensures Forgets(s, Take(s, t))
  {
  }

  lemma DropForgets(s: System, t: int)
    requires t in s.q.completed
    ensures Forgets(s, Drop(s, t))
  {
  }

  lemma SectionKeepsTracking(s: System, r: Reader)
    requires TrackingSound(s)
    ensures TrackingSound(Section(s, r).0)
  {
    SectionShape(s, r);
    if SchedulesAt(r) {
      ScheduleKeepsTracking(s, if r.place.Kicking? then r.timestep + r.place.next else r.timestep);
    } else {
      ForgettingKeepsTracking(s, Section(s, r).0);
    }
  }

  lemma CancelKeepsTracking(s: System, a: Action)
    requires TrackingSound(s) && Enabled(s, a) && (a.CancelBegins? || a.CancelReleases? || a.CancelEnds?)
    ensures TrackingSound(Apply(s, a))
  {
    if a.CancelReleases? {
      var t := s.closing.value[0];
      if t in s.q.completed { DropForgets(s, t); }
      ForgettingKeepsTracking(s, Apply(s, a));
    }
  }

  lemma ReadersKeepTracking(s: System, a: Action)
    requires TrackingSound(s) && Enabled(s, a) && (a.Enters? || a.Moves? || a.Expires?)
    ensures TrackingSound(Apply(s, a))
  {
    if a.Moves? {
      var m := Section(s, s.readers[a.reader]).0;
      SectionKeepsTracking(s, s.readers[a.reader]);
      assert Apply(s, a) == m.(readers := Apply(s, a).readers);
      ForgettingKeepsTracking(m, m.(readers := Apply(s, a).readers));
    } else {
      EnterAndExpireForget(s, a);
      ForgettingKeepsTracking(s, Apply(s, a));
    }
  }

  lemma EnterAndExpireForget(s: System, a: Action)
    requires Enabled(s, a) && (a.Enters? || a.Expires?)
    ensures Forgets(s, Apply(s, a))
  {
  }

  lemma FetchesKeepTracking(s: System, a: Action)
    requires TrackingSound(s) && Enabled(s, a)
    requires a.FetchStarts? || a.FetchGivesUp? || a.FetchReads? || a.FetchReleases? || a.FetchLands?
    ensures TrackingSound(Apply(s, a))
  {
    var s' := Apply(s, a);
    var f := a.fetch;
    if a.FetchLands? || (a.FetchStarts? && s.q.cancelled) {
      assert f in s.fetches;
      LeavingKeepsTracking(s, s', f);
    } else {
      ProgressKeepsTracking(s, s', f, s'.fetches[f].progress);
    }
  }

  lemma PoolKeepsTracking(s: System, a: Action)
    requires TrackingSound(s) && Enabled(s, a)
    requires a.HandedReleases? || a.OtherAcquires? || a.OtherReleases? || a.FetchAcquires?
    ensures TrackingSound(Apply(s, a))
  {
    var s' := Apply(s, a);
    if a.FetchAcquires? && Staging.TryAcquire(s.pool, a.required).1.Some? {
      ProgressKeepsTracking(s, s', a.fetch, s'.fetches[a.fetch].progress);
    } else {
      ForgettingKeepsTracking(s, s');
    }
  }

  lemma StepKeepsTracking(s: System, a: Action)
    requires TrackingSound(s)
    ensures TrackingSound(Step(s, a))
  {
    if Enabled(s, a) {
      if a.Enters? || a.Moves? || a.Expires? {
        ReadersKeepTracking(s, a);
      } else if a.Schedules? {
        ScheduleKeepsTracking(s, a.timestep);
      } else if a.WarmsUp? {
        ForgettingKeepsTracking(s, Apply(s, a));
      } else if a.CancelBegins? || a.CancelReleases? || a.CancelEnds? {
        CancelKeepsTracking(s, a);
      } else if a.HandedReleases? || a.OtherAcquires? || a.OtherReleases? || a.FetchAcquires? {
        PoolKeepsTracking(s, a);
      } else {
        FetchesKeepTracking(s, a);
      }
    }
  }

  /******* Invariant: who holds which buffer *******/

  /** The possible holders of an acquired buffer. */
  datatype Owner = ByFetch(fetch: nat) | ByStage(timestep: int) | ByHost | ByOthers

  function BufferOf(p: Progress): Option<nat> {
    if p.Holding? || p.Filled? || p.Spoiled? then Some(p.buf) else None
  }

  predicate Owns(s: System, o: Owner, b: nat) {
    match o
    case ByFetch(f) => f in s.fetches && BufferOf(s.fetches[f].progress) == Some(b)
    case ByStage(t) => t in s.q.completed && s.q.completed[t] == b
    case ByHost => b in s.handed
    case ByOthers => b in s.others
  }

  ghost predicate Owned(s: System, b: nat) {
    exists o :: Owns(s, o, b)
  }

  /** Every acquired buffer has exactly one holder, which has its only reference. */
  ghost predicate Conserved(s: System) {
    && Staging.Valid(s.pool)
    && (forall o, b :: Owns(s, o, b) ==> Staging.Held(s.pool, b))
    && (forall o, p, b :: Owns(s, o, b) && Owns(s, p, b) ==> o == p)
    && (forall b :: Staging.Referenced(s.pool, b) ==> Owned(s, b))
  }

  /** Holdings stay as they are, but for a change of holder of one buffer from `o` to `p`. */
  lemma TransferConserves(s: System, s': System, o: Owner, p: Owner, b: nat)
    requires Conserved(s) && Owns(s, o, b) && s'.pool == s.pool
    requires forall x, c :: Owns(s', x, c) <==> (x == p && c == b) || (Owns(s, x, c) && !(x == o && c == b))
    ensures Conserved(s')
  {
    assert Owns(s', p, b);
    forall c | Staging.Referenced(s'.pool, c) ensures Owned(s', c) {
      assert Owned(s, c);
      var x :| Owns(s, x, c);
      assert c != b ==> Owns(s', x, c);
    }
  }

  lemma SameHoldingsConserve(s: System, s': System)
    requires Conserved(s) && s'.pool == s.pool
    requires forall x, c :: Owns(s', x, c) <==> Owns(s, x, c)
    ensures Conserved(s')
  {
    forall c | Staging.Referenced(s'.pool, c) ensures Owned(s', c) {
      assert Owned(s, c);
      var x :| Owns(s, x, c);
      assert Owns(s', x, c);
    }
  }

  lemma GainConserves(s: System, s': System, p: Owner, n: nat)
    requires Conserved(s)
    requires var (q, r) := Staging.TryAcquire(s.pool, n);
      && r.Some? && s'.pool == q
      && forall x, c :: Owns(s', x, c) <==> (x == p && c == r.value) || Owns(s, x, c)
    ensures Conserved(s')
  {
    Staging.AcquireFrame(s.pool, n);
    var b := Staging.TryAcquire(s.pool, n).1.value;
    assert Owns(s', p, b);
    GainAt(s, s', p, b);
  }

  lemma GainAt(s: System, s': System, p: Owner, b: nat)
    requires Conserved(s) && Staging.Valid(s'.pool) && !Staging.Held(s.pool, b) && Staging.Held(s'.pool, b)
    requires Staging.OthersKept(s.pool, s'.pool, b)
    requires forall j :: Staging.Referenced(s'.pool, j) ==> j == b || Staging.Referenced(s.pool, j)
    requires forall x, c :: Owns(s', x, c) <==> (x == p && c == b) || Owns(s, x, c)
    ensures Conserved(s')
  {
    assert Owns(s', p, b);
    forall c | Staging.Referenced(s'.pool, c) ensures Owned(s', c) {
      if c != b {
        assert Owned(s, c);
        var x :| Owns(s, x, c);
        assert Owns(s', x, c);
      }
    }
  }

  lemma LossConserves(s: System, s': System, o: Owner, b: nat)
    requires Conserved(s) && Owns(s, o, b) && s'.pool == ReleaseIfHeld(s.pool, b)
    requires forall x, c :: Owns(s', x, c) <==> Owns(s, x, c) && !(x == o && c == b)
    ensures Conserved(s')
  {
    assert s'.pool == Staging.Release(s.pool, b);
    Staging.ReleaseFrame(s.pool, b);
    LossAt(s, s', o, b);
  }

  lemma LossAt(s: System, s': System, o: Owner, b: nat)
    requires Conserved(s) && Owns(s, o, b) && Staging.Valid(s'.pool) && Staging.OthersKept(s.pool, s'.pool, b)
    requires forall j :: Staging.Referenced(s'.pool, j) ==> j != b && Staging.Referenced(s.pool, j)
    requires forall x, c :: Owns(s', x, c) <==> Owns(s, x, c) && !(x == o && c == b)
    ensures Conserved(s')
  {
    forall x, c | Owns(s', x, c) ensures c != b && Staging.Held(s'.pool, c) {
      assert Owns(s, x, c);
    }
    forall c | Staging.Referenced(s'.pool, c) ensures Owned(s', c) {
      assert Owned(s, c);
      var x :| Owns(s, x, c);
      assert Owns(s', x, c);
    }
  }

  lemma ScheduleConserves(s: System, t: int)
    requires Conserved(s) && TrackingSound(s)
    ensures Conserved(Schedule(s, t))
  {
    var s' := Schedule(s, t);
    forall x, c ensures Owns(s', x, c) <==> Owns(s, x, c) {
      if x.ByFetch? && x.fetch == s.nextFetch { assert s.nextFetch !in s.fetches; }
    }
    SameHoldingsConserve(s, s');
  }

  lemma TakeConserves(s: System, t: int)
    requires Conserved(s) && t in s.q.completed
    ensures Conserved(Take(s, t))
  {
    var b := s.q.completed[t];
    assert Owns(s, ByStage(t), b);
    TransferConserves(s, Take(s, t), ByStage(t), ByHost, b);
  }

  lemma DropConserves(s: System, t: int)
    requires Conserved(s) && t in s.q.completed
    ensures Conserved(Drop(s, t))
  {
    var b := s.q.completed[t];
    assert Owns(s, ByStage(t), b);
    LossConserves(s, Drop(s, t), ByStage(t), b);
  }

  lemma ConsumeConserves(s: System, t: int)
    requires Conserved(s) && t in s.q.failed
    ensures Conserved(Consume(s, t))
  {
    SameHoldingsConserve(s, Consume(s, t));
  }

  lemma SectionConserves(s: System, r: Reader)
    requires Conserved(s) && TrackingSound(s)
    ensures Conserved(Section(s, r).0)
  {
    var t := r.timestep;
    if SchedulesAt(r) {
      ScheduleConserves(s, if r.place.Kicking? then t + r.place.next else t);
    } else {
      RemovalSection(s, r);
      if t in s.q.failed { ConsumeConserves(s, t); }
      if t in s.q.completed { TakeConserves(s, t); DropConserves(s, t); }
    }
  }

  /** A section that does not schedule leaves the state, or removes one entry. */
  lemma RemovalSection(s: System, r: Reader)
    requires !SchedulesAt(r)
    ensures var t, m := r.timestep, Section(s, r).0;
      || m == s
      || (t in s.q.failed && m == Consume(s, t))
      || (t in s.q.completed && (m == Take(s, t) || m == Drop(s, t)))
  {
  }

  lemma ReadersConserve(s: System, a: Action)
    requires Conserved(s) && TrackingSound(s) && Enabled(s, a) && (a.Enters? || a.Moves? || a.Expires?)
    ensures Conserved(Apply(s, a))
  {
    var s' := Apply(s, a);
    if a.Enters? {
      SameHoldingsConserve(s, s');
    } else if a.Moves? {
      SectionConserves(s, s.readers[a.reader]);
      SameHoldingsConserve(Section(s, s.readers[a.reader]).0, s');
    } else {
      var t := s.readers[a.reader].timestep;
      if t in s.q.completed {
        assert Owns(s, ByStage(t), s.q.completed[t]);
        TransferConserves(s, s', ByStage(t), ByHost, s.q.completed[t]);
      } else {
        SameHoldingsConserve(s, s');
      }
    }
  }

  /** What a cancellation has still to release covers all that is staged. */
  ghost predicate ClosingSound(s: System) {
    s.closing.Some? ==> s.q.cancelled && forall t :: t in s.q.completed ==> t in s.closing.value
  }

  lemma StepKeepsClosing(s: System, a: Action)
    requires ClosingSound(s)
    ensures ClosingSound(Step(s, a))
  {
    if Enabled(s, a) && a.CancelReleases? {
      CancelOneKeepsClosing(s);
    }
  }

  lemma CancelOneKeepsClosing(s: System)
    requires ClosingSound(s) && Enabled(s, CancelReleases)
    ensures ClosingSound(CancelOne(s))
  {
    var order := s.closing.value;
    assert order == [order[0]] + order[1..];
  }

  lemma CancelReleaseConserves(s: System)
    requires Conserved(s) && Enabled(s, CancelReleases)
    ensures Conserved(CancelOne(s))
  {
    var t := s.closing.value[0];
    if t in s.q.completed {
      DropConserves(s, t);
      ClosingIsNoHolding(Drop(s, t), CancelOne(s));
    } else {
      ClosingIsNoHolding(s, CancelOne(s));
    }
  }

  lemma ClosingIsNoHolding(s: System, s': System)
    requires Conserved(s) && s' == s.(closing := s'.closing)
    ensures Conserved(s')
  {
    SameHoldingsConserve(s, s');
  }

  lemma CancelConserves(s: System, a: Action)
    requires Conserved(s) && ClosingSound(s) && Enabled(s, a) && (a.CancelBegins? || a.CancelReleases? || a.CancelEnds?)
    ensures Conserved(Apply(s, a))
  {
    if a.CancelReleases? {
      CancelReleaseConserves(s);
    } else {
      SameHoldingsConserve(s, Apply(s, a));
    }
  }

  lemma FetchReleaseConserves(s: System, f: nat)
    requires Conserved(s) && Enabled(s, FetchReleases(f))
    ensures Conserved(Apply(s, FetchReleases(f)))
  {
    assert Owns(s, ByFetch(f), s.fetches[f].progress.buf);
    LossConserves(s, Apply(s, FetchReleases(f)), ByFetch(f), s.fetches[f].progress.buf);
  }

  /** A landing fetch never overwrites a staged buffer. */
  lemma LandConserves(s: System, f: nat)
    requires Conserved(s) && TrackingSound(s) && Enabled(s, FetchLands(f))
    ensures s.fetches[f].timestep !in s.q.completed
    ensures Conserved(Land(s, f))
  {
    var s' := Land(s, f);
    if s.fetches[f].progress.Filled? {
      assert Owns(s, ByFetch(f), s.fetches[f].progress.buf);
      TransferConserves(s, s', ByFetch(f), ByStage(s.fetches[f].timestep), s.fetches[f].progress.buf);
    } else {
      SameHoldingsConserve(s, s');
    }
  }

  lemma FetchesConserve(s: System, a: Action)
    requires Conserved(s) && Enabled(s, a) && (a.FetchStarts? || a.FetchGivesUp? || a.FetchReads?)
    ensures Conserved(Apply(s, a))
  {
    SameHoldingsConserve(s, Apply(s, a));
  }

  lemma FetchAcquireConserves(s: System, f: nat, n: nat)
    requires Conserved(s) && Enabled(s, FetchAcquires(f, n))
    ensures Conserved(Apply(s, FetchAcquires(f, n)))
  {
    var (p, r) := Staging.TryAcquire(s.pool, n);
    if r.Some? {
      var s' := SetProgress(s.(pool := p), f, Holding(r.value));
      HoldingIsOwned(s, s', f, r.value);
      GainConserves(s, s', ByFetch(f), n);
    }
  }

  /** A fetch that held nothing now holds `b`. */
  lemma HoldingIsOwned(s: System, s': System, f: nat, b: nat)
    requires FetchAt(s, f, Started) && s'.q == s.q && s'.handed == s.handed && s'.others == s.others
    requires s'.fetches == s.fetches[f := s.fetches[f].(progress := Holding(b))]
    ensures forall x, c :: Owns(s', x, c) <==> (x == ByFetch(f) && c == b) || Owns(s, x, c)
  {
  }

  lemma OtherAcquireConserves(s: System, n: nat)
    requires Conserved(s) && Enabled(s, OtherAcquires(n))
    ensures Conserved(Apply(s, OtherAcquires(n)))
  {
    var (p, r) := Staging.TryAcquire(s.pool, n);
    if r.Some? {
      var s' := s.(pool := p, others := s.others + {r.value});
      OtherIsOwned(s, s', r.value);
      GainConserves(s, s', ByOthers, n);
    }
  }

  lemma OtherIsOwned(s: System, s': System, b: nat)
    requires s'.q == s.q && s'.handed == s.handed && s'.others == s.others + {b} && s'.fetches == s.fetches
    ensures forall x, c :: Owns(s', x, c) <==> (x == ByOthers && c == b) || Owns(s, x, c)
  {
  }

  lemma AcquiresConserve(s: System, a: Action)
    requires Conserved(s) && Enabled(s, a) && (a.FetchAcquires? || a.OtherAcquires?)
    ensures Conserved(Apply(s, a))
  {
    match a {
      case FetchAcquires(f, n) => FetchAcquireConserves(s, f, n);
      case OtherAcquires(n) => OtherAcquireConserves(s, n);
    }
  }

  lemma ReleasesConserve(s: System, a: Action)
    requires Conserved(s) && Enabled(s, a) && (a.HandedReleases? || a.OtherReleases?)
    ensures Conserved(Apply(s, a))
  {
    var o := if a.HandedReleases? then ByHost else ByOthers;
    assert Owns(s, o, a.slot);
    LossConserves(s, Apply(s, a), o, a.slot);
  }

  lemma StepConserves(s: System, a: Action)
    requires Conserved(s) && TrackingSound(s) && ClosingSound(s)
    ensures Conserved(Step(s, a))
  {
    if Enabled(s, a) {
      if a.Enters? || a.Moves? || a.Expires? {
        ReadersConserve(s, a);
      } else if a.Schedules? {
        ScheduleConserves(s, a.timestep);
      } else if a.WarmsUp? {
        SameHoldingsConserve(s, Apply(s, a));
      } else if a.CancelBegins? || a.CancelReleases? || a.CancelEnds? {
        CancelConserves(s, a);
      } else if a.HandedReleases? || a.OtherReleases? {
        ReleasesConserve(s, a);
      } else if a.OtherAcquires? || a.FetchAcquires? {
        AcquiresConserve(s, a);
      } else if a.FetchReleases? {
        FetchReleaseConserves(s, a.fetch);
      } else if a.FetchLands? {
        LandConserves(s, a.fetch);
      } else {
        FetchesConserve(s, a);
      }
    }
  }

  /******* Invariant: what staged buffers contain *******/

  /** The recorded selection of a staged timestep is the one its buffer was read with. */
  ghost predicate StagedSound(s: System) {
    forall t :: t in s.q.completed ==> Content(s, s.q.completed[t]) == Some((t, Recorded(s.q, t)))
  }

  ghost predicate FilledSound(s: System) {
    forall f :: f in s.fetches && s.fetches[f].progress.Filled? ==>
      Content(s, s.fetches[f].progress.buf) == Some((s.fetches[f].timestep, s.fetches[f].sel))
  }

  /** A call that returned AMIO_OK got the timestep it asked for and, unless it came back
      through the expiry check, a buffer read with the selection it asked for. */
  ghost predicate ReaderSound(r: Reader) {
    r.place.Done? ==>
      if r.place.status == Ok then
        && r.place.buf.Some? && r.place.was.Some?
        && r.place.was.value.0 == r.timestep
        && (r.place.compared ==> Same(r.place.was.value.1, r.sel))
      else r.place.buf == None
  }

  ghost predicate ReadersSound(s: System) {
    forall id :: id in s.readers ==> ReaderSound(s.readers[id])
  }

  /** No recorded failure is a success. */
  ghost predicate ErrorsSound(s: System) {
    && (forall t :: t in s.q.failed ==> s.q.failed[t] != Ok)
    && (forall f :: f in s.fetches && s.fetches[f].progress.Lost? ==> s.fetches[f].progress.error != Ok)
  }

  ghost predicate Inv(s: System) {
    && TrackingSound(s) && Conserved(s) && ClosingSound(s) && StagedSound(s) && FilledSound(s)
    && ReadersSound(s) && ErrorsSound(s)
  }

  /** Entries are at most removed, and new fetches have done nothing yet. */
  ghost predicate Narrows(s: System, m: System) {
    && m.content == s.content && m.readers == s.readers
    && (forall t :: t in m.q.completed ==>
          t in s.q.completed && m.q.completed[t] == s.q.completed[t] && Recorded(m.q, t) == Recorded(s.q, t))
    && (forall t :: t in m.q.failed ==> t in s.q.failed && m.q.failed[t] == s.q.failed[t])
    && (forall f :: f in m.fetches ==> (f in s.fetches && m.fetches[f] == s.fetches[f]) || m.fetches[f].progress == Dispatched)
  }

  lemma RemovalsNarrow(s: System, t: int)
    ensures t in s.q.completed ==> Narrows(s, Take(s, t)) && Narrows(s, Drop(s, t))
    ensures t in s.q.failed ==> Narrows(s, Consume(s, t))
    ensures Narrows(s, s)
  {
  }

  lemma ScheduleNarrows(s: System, t: int)
    ensures Narrows(s, Schedule(s, t))
  {
  }

  lemma SectionNarrows(s: System, r: Reader)
    ensures Narrows(s, Section(s, r).0)
  {
    if SchedulesAt(r) {
      ScheduleNarrows(s, if r.place.Kicking? then r.timestep + r.place.next else r.timestep);
    } else {
      RemovalsNarrow(s, r.timestep);
    }
  }

  lemma NarrowingKeepsContents(s: System, m: System)
    requires StagedSound(s) && FilledSound(s) && ErrorsSound(s) && Narrows(s, m)
    ensures StagedSound(m) && FilledSound(m) && ErrorsSound(m)
  {
    forall t | t in m.q.completed ensures Content(m, m.q.completed[t]) == Some((t, Recorded(m.q, t))) {
      assert t in s.q.completed;
    }
  }

  lemma SectionServesExactly(s: System, r: Reader)
    requires StagedSound(s) && ErrorsSound(s) && ReaderSound(r)
    ensures ReaderSound(r.(place := Section(s, r).1))
  {
    if r.timestep in s.q.completed {
      assert Content(s, s.q.completed[r.timestep]) == Some((r.timestep, Recorded(s.q, r.timestep)));
    }
  }

  lemma ExpiryKeepsContents(s: System, t: int, r: Reader)
    requires StagedSound(s) && FilledSound(s) && ErrorsSound(s) && r.timestep == t
    ensures var (m, place) := Expiry(s, t);
      StagedSound(m) && FilledSound(m) && ErrorsSound(m) && ReaderSound(r.(place := place))
  {
    if t in s.q.completed {
      assert Content(s, s.q.completed[t]) == Some((t, Recorded(s.q, t)));
    }
  }

  /** A driver read changes only the buffer that the fetch itself holds. */
  lemma ReadKeepsContents(s: System, f: nat, ok: bool)
    requires Inv(s) && Enabled(s, FetchReads(f, ok))
    ensures var s' := Apply(s, FetchReads(f, ok)); StagedSound(s') && FilledSound(s') && ErrorsSound(s')
  {
    var s' := Apply(s, FetchReads(f, ok));
    var b := s.fetches[f].progress.buf;
    assert Owns(s, ByFetch(f), b);
    forall t | t in s'.q.completed ensures Content(s', s'.q.completed[t]) == Some((t, Recorded(s'.q, t))) {
      assert Owns(s, ByStage(t), s.q.completed[t]);
      assert s.q.completed[t] != b;
    }
    forall g | g in s'.fetches && s'.fetches[g].progress.Filled?
      ensures Content(s', s'.fetches[g].progress.buf) == Some((s'.fetches[g].timestep, s'.fetches[g].sel))
    {
      if g != f {
        assert Owns(s, ByFetch(g), s.fetches[g].progress.buf);
      }
    }
  }

  lemma LandKeepsContents(s: System, f: nat)
    requires StagedSound(s) && FilledSound(s) && ErrorsSound(s) && Enabled(s, FetchLands(f))
    ensures var s' := Land(s, f); StagedSound(s') && FilledSound(s') && ErrorsSound(s')
  {
    var s' := Land(s, f);
    forall t | t in s'.q.completed ensures Content(s', s'.q.completed[t]) == Some((t, Recorded(s'.q, t))) {
      if t != s.fetches[f].timestep || s.fetches[f].progress.Lost? {
        assert t in s.q.completed;
      }
    }
  }

  lemma ReadersKeepContents(s: System, a: Action)
    requires Inv(s) && Enabled(s, a) && (a.Enters? || a.Moves? || a.Expires?)
    ensures var s' := Apply(s, a); StagedSound(s') && FilledSound(s') && ErrorsSound(s') && ReadersSound(s')
  {
    if !a.Enters? {
      var r := s.readers[a.reader];
      assert ReaderSound(r);
      if a.Moves? {
        SectionNarrows(s, r);
        NarrowingKeepsContents(s, Section(s, r).0);
        SectionServesExactly(s, r);
        PlaceKeepsContents(s, Section(s, r).0, a.reader, Section(s, r).1);
      } else {
        ExpiryKeepsContents(s, r.timestep, r);
        PlaceKeepsContents(s, Expiry(s, r.timestep).0, a.reader, Expiry(s, r.timestep).1);
      }
    }
  }

  lemma PlaceKeepsContents(s: System, m: System, id: nat, place: Place)
    requires ReadersSound(s) && m.readers == s.readers && id in s.readers
    requires StagedSound(m) && FilledSound(m) && ErrorsSound(m) && ReaderSound(s.readers[id].(place := place))
    ensures var s' := m.(readers := m.readers[id := s.readers[id].(place := place)]);
      StagedSound(s') && FilledSound(s') && ErrorsSound(s') && ReadersSound(s')
  {
    var s' := m.(readers := m.readers[id := s.readers[id].(place := place)]);
    assert forall b :: Content(s', b) == Content(m, b);
  }

  /** Steps of one fetch that neither fill a buffer nor land. */
  lemma ProgressKeepsContents(s: System, s': System, f: nat, p: Progress)
    requires StagedSound(s) && FilledSound(s) && ErrorsSound(s) && f in s.fetches
    requires s'.q == s.q && s'.content == s.content && s'.fetches == s.fetches[f := s.fetches[f].(progress := p)]
    requires !p.Filled? && (p.Lost? ==> p.error != Ok)
    ensures StagedSound(s') && FilledSound(s') && ErrorsSound(s')
  {
    assert forall b :: Content(s', b) == Content(s, b);
  }

  lemma FetchStepsKeepContents(s: System, a: Action)
    requires StagedSound(s) && FilledSound(s) && ErrorsSound(s) && Enabled(s, a)
    requires a.FetchStarts? || a.FetchGivesUp? || a.FetchReleases? || a.FetchAcquires?
    ensures var s' := Apply(s, a); StagedSound(s') && FilledSound(s') && ErrorsSound(s')
  {
    var s' := Apply(s, a);
    if (a.FetchStarts? && s.q.cancelled) || (a.FetchAcquires? && Staging.TryAcquire(s.pool, a.required).1.None?) {
      NarrowingKeepsContents(s, s');
    } else {
      ProgressKeepsContents(s, s', a.fetch, s'.fetches[a.fetch].progress);
    }
  }

  lemma CancelKeepsContents(s: System, a: Action)
    requires StagedSound(s) && FilledSound(s) && ErrorsSound(s) && Enabled(s, a)
    requires a.CancelBegins? || a.CancelReleases? || a.CancelEnds? || a.WarmsUp?
    ensures var s' := Apply(s, a); StagedSound(s') && FilledSound(s') && ErrorsSound(s') && s'.readers == s.readers
  {
    var s' := Apply(s, a);
    if a.CancelReleases? {
      RemovalsNarrow(s, s.closing.value[0]);
    }
    NarrowingKeepsContents(s, s');
  }

  lemma StepKeepsContents(s: System, a: Action)
    requires Inv(s)
    ensures var s' := Step(s, a); StagedSound(s') && FilledSound(s') && ErrorsSound(s') && ReadersSound(s')
  {
    if Enabled(s, a) {
      if a.Enters? || a.Moves? || a.Expires? {
        ReadersKeepContents(s, a);
      } else if a.CancelBegins? || a.CancelReleases? || a.CancelEnds? || a.WarmsUp? {
        CancelKeepsContents(s, a);
      } else if a.FetchReads? {
        ReadKeepsContents(s, a.fetch, a.ok);
      } else if a.FetchLands? {
        LandKeepsContents(s, a.fetch);
      } else if a.Schedules? {
        ScheduleNarrows(s, a.timestep);
        NarrowingKeepsContents(s, Schedule(s, a.timestep));
      } else if a.FetchStarts? || a.FetchGivesUp? || a.FetchReleases? || a.FetchAcquires? {
        FetchStepsKeepContents(s, a);
      } else {
        OutsidersKeepContents(s, a);
      }
    }
  }

  lemma OutsidersKeepContents(s: System, a: Action)
    requires StagedSound(s) && FilledSound(s) && ErrorsSound(s) && Enabled(s, a)
    requires a.HandedReleases? || a.OtherAcquires? || a.OtherReleases?
    ensures var s' := Apply(s, a); StagedSound(s') && FilledSound(s') && ErrorsSound(s') && s'.readers == s.readers
  {
    NarrowingKeepsContents(s, Apply(s, a));
  }

  /******* Every run *******/

  lemma InitInv(pool: Staging.Pool, others: set<nat>, depth: nat, total: int)
    requires Staging.Valid(pool)
    requires forall b :: b in others ==> Staging.Held(pool, b)
    requires forall b :: Staging.Referenced(pool, b) ==> b in others
    ensures Inv(Init(pool, others, depth, total))
  {
    var s := Init(pool, others, depth, total);
    forall b | Staging.Referenced(pool, b) ensures Owned(s, b) {
      assert Owns(s, ByOthers, b);
    }
  }

  lemma StepInv(s: System, a: Action)
    requires Inv(s)
    ensures Inv(Step(s, a))
  {
    StepKeepsTracking(s, a);
    StepConserves(s, a);
    StepKeepsClosing(s, a);
    StepKeepsContents(s, a);
  }

  lemma {:induction false} RunInv(s: System, actions: seq<Action>)
    requires Inv(s)
    ensures Inv(Run(s, actions))
    decreases |actions|
  {
    if actions != [] {
      StepInv(s, actions[0]);
      RunInv(Step(s, actions[0]), actions[1..]);
    }
  }

  /** A legal starting point: everything referenced in the pool belongs to its other users. */
  ghost predicate FreshPool(pool: Staging.Pool, others: set<nat>) {
    && Staging.Valid(pool)
    && (forall b :: b in others ==> Staging.Held(pool, b))
    && (forall b :: Staging.Referenced(pool, b) ==> b in others)
  }

  /** Conservation, in every interleaving: each acquired buffer is in exactly one of a
      running fetch, the staged map, the hands of a caller or another user of the pool;
      before cancellation pending, staged and failed timesteps are pairwise disjoint and
      the running fetches match the pending set one to one. */
  lemma BuffersAreConserved(pool: Staging.Pool, others: set<nat>, depth: nat, total: int, actions: seq<Action>)
    requires FreshPool(pool, others)
    ensures var s := Run(Init(pool, others, depth, total), actions);
      && (forall b :: Staging.Referenced(s.pool, b) ==>
            exists o :: Owns(s, o, b) && forall p :: Owns(s, p, b) ==> p == o)
      && (forall o, b :: Owns(s, o, b) ==> Staging.Held(s.pool, b))
      && (!s.q.cancelled ==>
            && s.q.pending !! s.q.completed.Keys && s.q.pending !! s.q.failed.Keys
            && s.q.completed.Keys !! s.q.failed.Keys
            && (forall t :: t in s.q.pending <==> Fetching(s, t))
            && (forall f, g :: f in s.fetches && g in s.fetches && s.fetches[f].timestep == s.fetches[g].timestep ==> f == g))
  {
    InitInv(pool, others, depth, total);
    RunInv(Init(pool, others, depth, total), actions);
    var s := Run(Init(pool, others, depth, total), actions);
    forall b | Staging.Referenced(s.pool, b) ensures exists o :: Owns(s, o, b) && forall p :: Owns(s, p, b) ==> p == o {
      assert Owned(s, b);
    }
    forall t | t in s.q.pending && !s.q.cancelled ensures t !in s.q.completed && t !in s.q.failed {
      assert Fetching(s, t);
    }
    forall t | t in s.q.completed.Keys ensures t !in s.q.failed.Keys {
      assert t in s.q.completed;
    }
  }

  /** The queue is being destroyed, or has been: no fetch is running. */
  ghost predicate Winding(s: System) {
    && s.q.cancelled && s.fetches == map[]
    && (Open(s) ==> s.q.completed == map[])
    && ClosingSound(s)
  }

  lemma SectionKeepsWinding(s: System, r: Reader)
    requires s.q.cancelled && s.fetches == map[] && s.q.completed == map[]
    ensures var m := Section(s, r).0;
      m.q.cancelled && m.fetches == map[] && m.q.completed == map[] && m.closing == s.closing
  {
  }

  lemma StepKeepsWinding(s: System, a: Action)
    requires Winding(s)
    ensures Winding(Step(s, a))
  {
    if Enabled(s, a) {
      if a.Moves? {
        SectionKeepsWinding(s, s.readers[a.reader]);
      }
      StepKeepsClosing(s, a);
    }
  }

  lemma {:induction false} RunKeepsWinding(s: System, actions: seq<Action>)
    requires Winding(s)
    ensures Winding(Run(s, actions))
    decreases |actions|
  {
    if actions != [] {
      StepKeepsWinding(s, actions[0]);
      RunKeepsWinding(Step(s, actions[0]), actions[1..]);
    }
  }

  /** After the destructor's cancellation, with no fetch running, only the buffers that
      callers and other users still hold remain acquired - whatever those do with the pool
      between the single releases. */
  lemma CancellationReturnsStaged(pool: Staging.Pool, others: set<nat>, depth: nat, total: int,
                                  actions: seq<Action>, order: seq<int>, after: seq<Action>)
    requires FreshPool(pool, others)
    requires var s := Run(Init(pool, others, depth, total), actions);
      Open(s) && s.fetches == map[] && Lists(order, s.q.completed)
    ensures var s := Run(Step(Run(Init(pool, others, depth, total), actions), CancelBegins(order)), after);
      Open(s) ==>
        && (forall b :: Staging.Referenced(s.pool, b) <==> b in s.handed || b in s.others)
        && s.handed !! s.others
  {
    InitInv(pool, others, depth, total);
    RunInv(Init(pool, others, depth, total), actions);
    var s0 := Run(Init(pool, others, depth, total), actions);
    StepInv(s0, CancelBegins(order));
    RunInv(Step(s0, CancelBegins(order)), after);
    RunKeepsWinding(Step(s0, CancelBegins(order)), after);
    if Open(Run(Step(s0, CancelBegins(order)), after)) {
      OnlyHandedRemain(Run(Step(s0, CancelBegins(order)), after));
    }
  }

  lemma OnlyHandedRemain(s: System)
    requires Conserved(s) && Winding(s) && Open(s)
    ensures forall b :: Staging.Referenced(s.pool, b) <==> b in s.handed || b in s.others
    ensures s.handed !! s.others
  {
    forall b ensures Staging.Referenced(s.pool, b) <==> b in s.handed || b in s.others {
      if Staging.Referenced(s.pool, b) {
        assert Owned(s, b);
      }
      if b in s.handed { assert Owns(s, ByHost, b); }
      if b in s.others { assert Owns(s, ByOthers, b); }
    }
    forall b | b in s.handed ensures b !in s.others {
      assert Owns(s, ByHost, b);
      assert Owns(s, ByOthers, b) ==> ByHost == ByOthers;
    }
  }

  /** However selections change between calls and while fetches are in flight, every
      AMIO_OK that comes back through a compared path carries a buffer that was read for
      the requested timestep with exactly the requested selection. */
  lemma SelectionIsExact(pool: Staging.Pool, others: set<nat>, depth: nat, total: int, actions: seq<Action>, id: nat)
    requires FreshPool(pool, others)
    requires var s := Run(Init(pool, others, depth, total), actions);
      id in s.readers && s.readers[id].place.Done? && s.readers[id].place.status == Ok
    ensures var r := Run(Init(pool, others, depth, total), actions).readers[id];
      && r.place.buf.Some? && r.place.was.Some? && r.place.was.value.0 == r.timestep
      && (r.place.compared ==> RegionOf(r.place.was.value.1) == RegionOf(r.sel))
  {
    InitInv(pool, others, depth, total);
    RunInv(Init(pool, others, depth, total), actions);
    assert ReaderSound(Run(Init(pool, others, depth, total), actions).readers[id]);
  }

  lemma RunOne(s: System, a: Action, rest: seq<Action>)
    ensures Run(s, [a] + rest) == Run(Step(s, a), rest)
  {
    assert ([a] + rest)[1..] == rest;
  }

  /******* One region *******/

  /** Every call of the run selects region `region`, and nothing is warmed up before the
      first call unless the region is the full record. */
  ghost predicate OneRegion(s: System, actions: seq<Action>, region: Region, asked: bool)
    decreases |actions|
  {
    actions != [] ==>
      var a := actions[0];
      && (a.Enters? ==> RegionOf(a.sel) == region)
      && (a.Schedules? ==> asked || region == Everything)
      && OneRegion(Step(s, a), actions[1..], region, asked || (a.Enters? && Enabled(s, a)))
  }

  /** All that is staged or being fetched is of one region. */
  ghost predicate Uniform(s: System, region: Region) {
    && (forall t :: t in s.q.completed ==> RegionOf(Recorded(s.q, t)) == region)
    && (forall f :: f in s.fetches ==> RegionOf(s.fetches[f].sel) == region)
  }

  /** A successful answer holds a buffer that was read with the requested region. */
  predicate Matches(r: Reader) {
    r.place.Done? && r.place.status == Ok ==> r.place.was.Some? && Same(r.place.was.value.1, r.sel)
  }

  ghost predicate UniformReaders(s: System, region: Region) {
    forall id :: id in s.readers ==> RegionOf(s.readers[id].sel) == region && Matches(s.readers[id])
  }

  ghost predicate OfOneRegion(s: System, region: Region, asked: bool) {
    && (asked || region == Everything ==> RegionOf(s.q.latched) == region)
    && (s.readers != map[] ==> asked)
    && Uniform(s, region) && UniformReaders(s, region)
  }

  lemma ScheduleKeepsUniform(s: System, t: int, region: Region)
    requires Uniform(s, region) && RegionOf(s.q.latched) == region
    ensures Uniform(Schedule(s, t), region) && Schedule(s, t).q.latched == s.q.latched
  {
  }

  lemma NarrowingKeepsUniform(s: System, m: System, region: Region)
    requires Uniform(s, region) && m.fetches == s.fetches
    requires forall t :: t in m.q.completed ==> t in s.q.completed && Recorded(m.q, t) == Recorded(s.q, t)
    ensures Uniform(m, region)
  {
  }

  lemma RemovalsKeepUniform(s: System, t: int, region: Region)
    requires Uniform(s, region)
    ensures t in s.q.completed ==>
      Uniform(Take(s, t), region) && Uniform(Drop(s, t), region)
      && Take(s, t).q.latched == s.q.latched && Drop(s, t).q.latched == s.q.latched
    ensures t in s.q.failed ==> Uniform(Consume(s, t), region) && Consume(s, t).q.latched == s.q.latched
  {
    if t in s.q.completed {
      NarrowingKeepsUniform(s, Take(s, t), region);
      NarrowingKeepsUniform(s, Drop(s, t), region);
    }
    if t in s.q.failed { NarrowingKeepsUniform(s, Consume(s, t), region); }
  }

  lemma SectionKeepsUniform(s: System, r: Reader, region: Region)
    requires Uniform(s, region) && RegionOf(s.q.latched) == region
    ensures var m := Section(s, r).0; Uniform(m, region) && m.q.latched == s.q.latched
  {
    if SchedulesAt(r) {
      ScheduleKeepsUniform(s, if r.place.Kicking? then r.timestep + r.place.next else r.timestep, region);
    } else {
      RemovalSection(s, r);
      RemovalsKeepUniform(s, r.timestep, region);
    }
  }

  /** What is handed out for `t` was read with the recorded selection. */
  lemma ServedIsRecorded(s: System, t: int, compared: bool)
    requires StagedSound(s) && t in s.q.completed
    ensures Served(s, t, compared) == Done(Ok, Some(s.q.completed[t]), compared, Some((t, Recorded(s.q, t))))
  {
    assert Content(s, s.q.completed[t]) == Some((t, Recorded(s.q, t)));
  }

  lemma SectionMatches(s: System, r: Reader, region: Region)
    requires StagedSound(s) && ErrorsSound(s) && Uniform(s, region) && RegionOf(r.sel) == region && Matches(r)
    ensures Matches(r.(place := Section(s, r).1))
  {
    if r.timestep in s.q.completed { ServedIsRecorded(s, r.timestep, true); }
  }

  lemma ExpiryMatches(s: System, r: Reader, region: Region)
    requires StagedSound(s) && ErrorsSound(s) && Uniform(s, region) && RegionOf(r.sel) == region
    ensures var (m, place) := Expiry(s, r.timestep);
      Uniform(m, region) && m.q.latched == s.q.latched && m.readers == s.readers && Matches(r.(place := place))
  {
    var m := Expiry(s, r.timestep).0;
    if r.timestep in s.q.completed { ServedIsRecorded(s, r.timestep, false); }
    assert forall t :: t in m.q.completed ==> t in s.q.completed && Recorded(m.q, t) == Recorded(s.q, t);
    NarrowingKeepsUniform(s, m, region);
  }

  lemma MoveKeepsRegion(s: System, id: nat, region: Region)
    requires StagedSound(s) && ErrorsSound(s) && OfOneRegion(s, region, true) && id in s.readers
    ensures OfOneRegion(Move(s, id), region, true)
  {
    var r := s.readers[id];
    var m := Section(s, r).0;
    SectionKeepsUniform(s, r, region);
    SectionMatches(s, r, region);
    SectionNarrows(s, r);
    NarrowingKeepsUniform(m, Move(s, id), region);
  }

  lemma ExpireKeepsRegion(s: System, id: nat, region: Region)
    requires StagedSound(s) && ErrorsSound(s) && OfOneRegion(s, region, true) && id in s.readers
    ensures OfOneRegion(Expire(s, id), region, true)
  {
    ExpiryMatches(s, s.readers[id], region);
    NarrowingKeepsUniform(Expiry(s, s.readers[id].timestep).0, Expire(s, id), region);
  }

  lemma EnterKeepsRegion(s: System, a: Action, region: Region, asked: bool)
    requires OfOneRegion(s, region, asked) && a.Enters? && Enabled(s, a) && RegionOf(a.sel) == region
    ensures OfOneRegion(Apply(s, a), region, true)
  {
    NarrowingKeepsUniform(s, Apply(s, a), region);
  }

  lemma LandKeepsRegion(s: System, f: nat, region: Region, asked: bool)
    requires OfOneRegion(s, region, asked) && Enabled(s, FetchLands(f))
    ensures OfOneRegion(Land(s, f), region, asked)
  {
    var s' := Land(s, f);
    forall t | t in s'.q.completed ensures RegionOf(Recorded(s'.q, t)) == region {
      if t != s.fetches[f].timestep || s.fetches[f].progress.Lost? { assert Recorded(s'.q, t) == Recorded(s.q, t); }
    }
  }

  /** A fetch moves on, or leaves without landing. */
  lemma ProgressKeepsRegion(s: System, s': System, f: nat, region: Region, asked: bool)
    requires OfOneRegion(s, region, asked) && f in s.fetches && s'.readers == s.readers
    requires s'.q == s.q.(pending := s'.q.pending)
    requires s'.fetches == s.fetches - {f} || exists p :: s'.fetches == s.fetches[f := s.fetches[f].(progress := p)]
    ensures OfOneRegion(s', region, asked)
  {
    assert forall t :: Recorded(s'.q, t) == Recorded(s.q, t);
  }

  lemma FetchKeepsRegion(s: System, a: Action, region: Region, asked: bool)
    requires OfOneRegion(s, region, asked) && Enabled(s, a)
    requires a.FetchStarts? || a.FetchAcquires? || a.FetchGivesUp? || a.FetchReads? || a.FetchReleases?
    ensures OfOneRegion(Apply(s, a), region, asked)
  {
    var s' := Apply(s, a);
    if a.FetchAcquires? && Staging.TryAcquire(s.pool, a.required).1.None? {
    } else {
      if !(a.FetchStarts? && s.q.cancelled) {
        assert s'.fetches == s.fetches[a.fetch := s.fetches[a.fetch].(progress := s'.fetches[a.fetch].progress)];
      }
      ProgressKeepsRegion(s, s', a.fetch, region, asked);
    }
  }

  lemma CancelKeepsRegion(s: System, a: Action, region: Region, asked: bool)
    requires OfOneRegion(s, region, asked) && Enabled(s, a) && (a.CancelBegins? || a.CancelReleases? || a.CancelEnds?)
    ensures OfOneRegion(Apply(s, a), region, asked)
  {
    if a.CancelReleases? {
      var t := s.closing.value[0];
      RemovalsKeepUniform(s, t, region);
      NarrowingKeepsUniform(if t in s.q.completed then Drop(s, t) else s, Apply(s, a), region);
    } else {
      NarrowingKeepsUniform(s, Apply(s, a), region);
    }
  }

  lemma RestKeepsRegion(s: System, a: Action, region: Region, asked: bool)
    requires OfOneRegion(s, region, asked) && Enabled(s, a)
    requires a.WarmsUp? || a.HandedReleases? || a.OtherAcquires? || a.OtherReleases?
    ensures OfOneRegion(Apply(s, a), region, asked)
  {
    SameQueueKeepsRegion(s, Apply(s, a), region, asked);
  }

  lemma SameQueueKeepsRegion(s: System, s': System, region: Region, asked: bool)
    requires OfOneRegion(s, region, asked) && s'.fetches == s.fetches && s'.readers == s.readers
    requires s'.q == s.q.(kicked := s'.q.kicked)
    ensures OfOneRegion(s', region, asked)
  {
    NarrowingKeepsUniform(s, s', region);
  }

  lemma StepKeepsRegion(s: System, a: Action, region: Region, asked: bool)
    requires StagedSound(s) && ErrorsSound(s) && OfOneRegion(s, region, asked)
    requires a.Enters? ==> RegionOf(a.sel) == region
    requires a.Schedules? ==> asked || region == Everything
    ensures OfOneRegion(Step(s, a), region, asked || (a.Enters? && Enabled(s, a)))
  {
    if Enabled(s, a) {
      if a.Enters? {
        EnterKeepsRegion(s, a, region, asked);
      } else if a.Moves? {
        MoveKeepsRegion(s, a.reader, region);
      } else if a.Expires? {
        ExpireKeepsRegion(s, a.reader, region);
      } else if a.Schedules? {
        ScheduleKeepsUniform(s, a.timestep, region);
      } else if a.FetchLands? {
        LandKeepsRegion(s, a.fetch, region, asked);
      } else if a.FetchStarts? || a.FetchAcquires? || a.FetchGivesUp? || a.FetchReads? || a.FetchReleases? {
        FetchKeepsRegion(s, a, region, asked);
      } else if a.CancelBegins? || a.CancelReleases? || a.CancelEnds? {
        CancelKeepsRegion(s, a, region, asked);
      } else {
        RestKeepsRegion(s, a, region, asked);
      }
    }
  }

  lemma {:induction false} RunKeepsRegion(s: System, actions: seq<Action>, region: Region, asked: bool)
    requires Inv(s) && OfOneRegion(s, region, asked) && OneRegion(s, actions, region, asked)
    ensures UniformReaders(Run(s, actions), region)
    decreases |actions|
  {
    if actions != [] {
      StepInv(s, actions[0]);
      StepKeepsRegion(s, actions[0], region, asked);
      RunKeepsRegion(Step(s, actions[0]), actions[1..], region, asked || (actions[0].Enters? && Enabled(s, actions[0])));
    }
  }

  /** If all calls of a run select one region, and so does a warm-up, then every AMIO_OK
      matches its request on every path, expiry included. */
  lemma OneRegionAlwaysMatches(pool: Staging.Pool, others: set<nat>, depth: nat, total: int,
                               actions: seq<Action>, region: Region, id: nat)
    requires FreshPool(pool, others) && OneRegion(Init(pool, others, depth, total), actions, region, false)
    requires id in Run(Init(pool, others, depth, total), actions).readers
    ensures Matches(Run(Init(pool, others, depth, total), actions).readers[id])
  {
    InitInv(pool, others, depth, total);
    RunKeepsRegion(Init(pool, others, depth, total), actions, region, false);
  }

  /******* Two regions *******/

  /** Record `t` is asked for with `a`; the wait expires. */
  function AskAndGiveUp(t: int, a: Selection): seq<Action> {
    [Enters(1, t, a)] + ([Moves(1)] + ([Moves(1)] + ([Moves(1)] + ([Moves(1)] + ([Expires(1)] + [])))))
  }

  /** Then it is asked for with `b`. */
  function AskAgain(t: int, b: Selection): seq<Action> {
    [Enters(1, t, b)] + ([Moves(1)] + ([Moves(1)] + []))
  }

  /** Then the first fetch lands just as the second wait expires. */
  function LandThenExpire(required: nat): seq<Action> {
    [FetchStarts(0)] + ([FetchAcquires(0, required)] + ([FetchReads(0, true)] + ([FetchLands(0)] + ([Expires(1)] + []))))
  }

  /** The fetch of record `t` with selection `a` is still waiting to run. */
  ghost predicate FetchWaits(s: System, t: int, a: Selection, latched: Selection) {
    && Open(s) && s.q == EMPTY_QUEUE.(pending := {t}, latched := latched, kicked := true)
    && s.fetches == map[0 := Fetch(t, a, Dispatched)]
  }

  lemma MoveStep(s: System, r: Reader, next: Place)
    requires Open(s) && s.readers == map[1 := r] && Section(s, r) == (s, next)
    ensures Step(s, Moves(1)) == s.(readers := map[1 := r.(place := next)])
  {
  }

  /** The look-ahead window of the last record is that record alone. */
  lemma FirstCallSchedules(pool: Staging.Pool, others: set<nat>, depth: nat, total: int, a: Selection)
    requires depth >= 1
    ensures var s := Step(Step(Init(pool, others, depth, total), Enters(1, total - 1, a)), Moves(1));
      && s.pool == pool && FetchWaits(s, total - 1, a, a)
      && s.readers == map[1 := Reader(total - 1, a, Kicking(1, 1))]
  {
    var s1 := Step(Init(pool, others, depth, total), Enters(1, total - 1, a));
    assert s1.readers == map[1 := Reader(total - 1, a, Kicking(0, 1))];
  }

  lemma FirstCallExpires(pool: Staging.Pool, others: set<nat>, depth: nat, total: int, a: Selection)
    requires depth >= 1
    ensures var s := Run(Init(pool, others, depth, total), AskAndGiveUp(total - 1, a));
      && s.pool == pool && FetchWaits(s, total - 1, a, a)
      && s.readers == map[1 := Reader(total - 1, a, Failing(Timeout))]
  {
    var s0 := Init(pool, others, depth, total);
    var s1 := Step(s0, Enters(1, total - 1, a));
    FirstCallSchedules(pool, others, depth, total, a);
    var rest := [Moves(1)] + ([Moves(1)] + ([Moves(1)] + ([Expires(1)] + [])));
    RunOne(s0, Enters(1, total - 1, a), [Moves(1)] + rest);
    RunOne(s1, Moves(1), rest);
    WaitsAndExpires(Step(s1, Moves(1)), total - 1, a);
  }

  lemma WaitsAndExpires(s: System, t: int, a: Selection)
    requires FetchWaits(s, t, a, a) && s.readers == map[1 := Reader(t, a, Kicking(1, 1))]
    ensures Run(s, [Moves(1)] + ([Moves(1)] + ([Moves(1)] + ([Expires(1)] + []))))
         == s.(readers := map[1 := Reader(t, a, Failing(Timeout))])
  {
    var s1 := s.(readers := map[1 := Reader(t, a, Checking)]);
    var s2 := s.(readers := map[1 := Reader(t, a, Looping)]);
    var s3 := s.(readers := map[1 := Reader(t, a, Waiting)]);
    MoveStep(s, Reader(t, a, Kicking(1, 1)), Checking);
    MoveStep(s1, Reader(t, a, Checking), Looping);
    MoveStep(s2, Reader(t, a, Looping), Waiting);
    RunOne(s, Moves(1), [Moves(1)] + ([Moves(1)] + ([Expires(1)] + [])));
    RunOne(s1, Moves(1), [Moves(1)] + ([Expires(1)] + []));
    RunOne(s2, Moves(1), [Expires(1)] + []);
    RunOne(s3, Expires(1), []);
    assert Step(s3, Expires(1)).readers == map[1 := Reader(t, a, Failing(Timeout))];
  }

  lemma SecondCallWaits(s: System, t: int, a: Selection, b: Selection)
    requires FetchWaits(s, t, a, a) && s.readers == map[1 := Reader(t, a, Failing(Timeout))]
    ensures Run(s, AskAgain(t, b)) == s.(q := s.q.(latched := b), readers := map[1 := Reader(t, b, Waiting)])
  {
    var m := s.(q := s.q.(latched := b));
    var s1 := m.(readers := map[1 := Reader(t, b, Checking)]);
    var s2 := m.(readers := map[1 := Reader(t, b, Looping)]);
    assert Step(s, Enters(1, t, b)) == s1;
    MoveStep(s1, Reader(t, b, Checking), Looping);
    MoveStep(s2, Reader(t, b, Looping), Waiting);
    RunOne(s, Enters(1, t, b), [Moves(1)] + ([Moves(1)] + []));
    RunOne(s1, Moves(1), [Moves(1)] + []);
    RunOne(s2, Moves(1), []);
  }

  lemma FetchGetsBuffer(s: System, t: int, a: Selection, b: Selection, required: nat) returns (i: nat)
    requires FetchWaits(s, t, a, b) && Staging.InRange(s.pool) && Staging.TryAcquire(s.pool, required).1.Some?
    ensures var s' := Step(Step(s, FetchStarts(0)), FetchAcquires(0, required));
      s'.fetches == map[0 := Fetch(t, a, Holding(i))] && s'.q == s.q && s'.readers == s.readers && Open(s')
  {
    i := Staging.TryAcquire(s.pool, required).1.value;
    var s1 := Step(s, FetchStarts(0));
    assert s1.fetches == map[0 := Fetch(t, a, Started)] && s1.pool == s.pool && s1.q == s.q;
  }

  /** The state after the only running fetch has read its buffer successfully. */
  function AfterGoodRead(s: System, f: nat, t: int, sel: Selection, i: nat): System {
    s.(fetches := map[f := Fetch(t, sel, Filled(i))], content := s.content[i := (t, sel)], trail := s.trail + [(t, sel)])
  }

  lemma GoodReadStep(s: System, f: nat, t: int, sel: Selection, i: nat)
    requires s.fetches == map[f := Fetch(t, sel, Holding(i))]
    ensures Step(s, FetchReads(f, true)) == AfterGoodRead(s, f, t, sel, i)
  {
    assert Step(s, FetchReads(f, true)).fetches == map[f := Fetch(t, sel, Filled(i))];
  }

  /** The state after the only running fetch has landed with buffer `i`. */
  function AfterLanding(s: System, t: int, sel: Selection, i: nat): System {
    s.(fetches := map[],
       q := s.q.(pending := s.q.pending - {t}, completed := s.q.completed[t := i],
                 fetched := if sel.Some? then s.q.fetched[t := sel.value] else s.q.fetched - {t}))
  }

  lemma LandingStep(s: System, f: nat, t: int, sel: Selection, i: nat)
    requires Open(s) && s.fetches == map[f := Fetch(t, sel, Filled(i))]
    ensures Step(s, FetchLands(f)) == AfterLanding(s, t, sel, i)
  {
    assert s.fetches - {f} == map[];
  }

  /** The answer to a request for `t` with `b` is a buffer that was read with `a`. */
  ghost predicate AnsweredWith(s: System, t: int, a: Selection, b: Selection) {
    1 in s.readers && s.readers[1].sel == b && s.readers[1].place.Done? && s.readers[1].place.status == Ok
    && s.readers[1].place.was == Some((t, a))
  }

  lemma ExpiryStep(s: System, t: int, a: Selection, b: Selection, i: nat)
    requires Open(s) && s.readers == map[1 := Reader(t, b, Waiting)] && t in s.q.completed && s.q.completed[t] == i
    requires i in s.content && s.content[i] == (t, a)
    ensures AnsweredWith(Step(s, Expires(1)), t, a, b)
  {
  }

  lemma LandingMeetsExpiry(s: System, t: int, a: Selection, b: Selection, i: nat)
    requires Open(s) && s.fetches == map[0 := Fetch(t, a, Holding(i))] && s.readers == map[1 := Reader(t, b, Waiting)]
    ensures AnsweredWith(Run(s, [FetchReads(0, true)] + ([FetchLands(0)] + ([Expires(1)] + []))), t, a, b)
  {
    var s1 := AfterGoodRead(s, 0, t, a, i);
    var s2 := AfterLanding(s1, t, a, i);
    GoodReadStep(s, 0, t, a, i);
    LandingStep(s1, 0, t, a, i);
    ExpiryStep(s2, t, a, b, i);
    RunOne(s, FetchReads(0, true), [FetchLands(0)] + ([Expires(1)] + []));
    RunOne(s1, FetchLands(0), [Expires(1)] + []);
    RunOne(s2, Expires(1), []);
  }

  lemma StaleFetchIsServed(s: System, t: int, a: Selection, b: Selection, required: nat)
    requires Staging.Valid(s.pool) && Staging.Room(s.pool) > 0
    requires FetchWaits(s, t, a, b) && s.readers == map[1 := Reader(t, b, Waiting)]
    ensures AnsweredWith(Run(s, LandThenExpire(required)), t, a, b)
  {
    var rest := [FetchReads(0, true)] + ([FetchLands(0)] + ([Expires(1)] + []));
    Staging.TryAcquireCorrect(s.pool, required);
    var i := FetchGetsBuffer(s, t, a, b, required);
    RunOne(s, FetchStarts(0), [FetchAcquires(0, required)] + rest);
    RunOne(Step(s, FetchStarts(0)), FetchAcquires(0, required), rest);
    LandingMeetsExpiry(Step(Step(s, FetchStarts(0)), FetchAcquires(0, required)), t, a, b, i);
  }

  function TwoRegionRun(t: int, a: Selection, b: Selection, required: nat): seq<Action> {
    AskAndGiveUp(t, a) + (AskAgain(t, b) + LandThenExpire(required))
  }

  /** For any two selections, any depth and any number of records there is a run of one
      caller, without warm-up, in which a request with the second is answered with a buffer
      read with the first. */
  lemma TwoRegionsMeet(pool: Staging.Pool, others: set<nat>, depth: nat, total: int, a: Selection, b: Selection, required: nat)
    requires Staging.Valid(pool) && Staging.Room(pool) > 0 && depth >= 1
    ensures AnsweredWith(Run(Init(pool, others, depth, total), TwoRegionRun(total - 1, a, b, required)), total - 1, a, b)
  {
    var s0, t := Init(pool, others, depth, total), total - 1;
    FirstCallExpires(pool, others, depth, total, a);
    var s1 := Run(s0, AskAndGiveUp(t, a));
    SecondCallWaits(s1, t, a, b);
    RunSplit(s0, AskAndGiveUp(t, a), AskAgain(t, b) + LandThenExpire(required));
    RunSplit(s1, AskAgain(t, b), LandThenExpire(required));
    StaleFetchIsServed(Run(s1, AskAgain(t, b)), t, a, b, required);
  }

  /** All calls select `a` or `b`, and nothing is warmed up before the first call. */
  ghost predicate OnlySelects(s: System, actions: seq<Action>, a: Selection, b: Selection, asked: bool)
    decreases |actions|
  {
    actions != [] ==>
      var x := actions[0];
      && (x.Enters? ==> x.sel == a || x.sel == b)
      && (x.Schedules? ==> asked)
      && OnlySelects(Step(s, x), actions[1..], a, b, asked || (x.Enters? && Enabled(s, x)))
  }

  lemma {:induction false} SameSelectionsAreOneRegion(s: System, actions: seq<Action>, a: Selection, b: Selection, asked: bool)
    requires OnlySelects(s, actions, a, b, asked) && Same(a, b)
    ensures OneRegion(s, actions, RegionOf(a), asked)
    decreases |actions|
  {
    if actions != [] {
      SameSelectionsAreOneRegion(Step(s, actions[0]), actions[1..], a, b, asked || (actions[0].Enters? && Enabled(s, actions[0])));
    }
  }

  lemma {:induction false} CallsAlone(s: System, actions: seq<Action>, a: Selection, b: Selection, asked: bool)
    requires forall i :: 0 <= i < |actions| ==>
      (actions[i].Enters? ==> actions[i].sel == a || actions[i].sel == b) && !actions[i].Schedules?
    ensures OnlySelects(s, actions, a, b, asked)
    decreases |actions|
  {
    if actions != [] {
      CallsAlone(Step(s, actions[0]), actions[1..], a, b, asked || (actions[0].Enters? && Enabled(s, actions[0])));
    }
  }

  /** Every AMIO_OK of the run matches its request. */
  ghost predicate AllMatch(s: System, actions: seq<Action>) {
    forall id :: id in Run(s, actions).readers ==> Matches(Run(s, actions).readers[id])
  }

  lemma SameSelectionsMatch(pool: Staging.Pool, others: set<nat>, depth: nat, total: int,
                            actions: seq<Action>, a: Selection, b: Selection)
    requires FreshPool(pool, others) && Same(a, b) && OnlySelects(Init(pool, others, depth, total), actions, a, b, false)
    ensures AllMatch(Init(pool, others, depth, total), actions)
  {
    SameSelectionsAreOneRegion(Init(pool, others, depth, total), actions, a, b, false);
    forall id | id in Run(Init(pool, others, depth, total), actions).readers
      ensures Matches(Run(Init(pool, others, depth, total), actions).readers[id])
    {
      OneRegionAlwaysMatches(pool, others, depth, total, actions, RegionOf(a), id);
    }
  }

  /** A full pool gets room when one of its other users releases a buffer. */
  lemma RoomComes(pool: Staging.Pool, others: set<nat>, depth: nat, total: int)
      returns (prefix: seq<Action>, p: Staging.Pool, o: set<nat>)
    requires FreshPool(pool, others) && pool.ceiling >= 1
    ensures |prefix| <= 1 && forall i :: 0 <= i < |prefix| ==> prefix[i].OtherReleases?
    ensures Staging.Valid(p) && Staging.Room(p) > 0
    ensures Run(Init(pool, others, depth, total), prefix) == Init(p, o, depth, total)
  {
    Staging.TryAcquireCorrect(pool, 1);
    if Staging.Room(pool) > 0 {
      prefix, p, o := [], pool, others;
    } else {
      prefix, p, o := [OtherReleases(0)], Staging.Release(pool, 0), others - {0};
      Staging.ReleaseCorrect(pool, 0);
      ReleaseAtStart(pool, others, depth, total);
    }
  }

  lemma ReleaseAtStart(pool: Staging.Pool, others: set<nat>, depth: nat, total: int)
    requires Staging.InRange(pool) && Staging.Referenced(pool, 0) && 0 in others
    ensures Run(Init(pool, others, depth, total), [OtherReleases(0)])
         == Init(Staging.Release(pool, 0), others - {0}, depth, total)
  {
    assert [OtherReleases(0)] + [] == [OtherReleases(0)];
    RunOne(Init(pool, others, depth, total), OtherReleases(0), []);
  }

  lemma DifferentSelectionsMismatch(pool: Staging.Pool, others: set<nat>, depth: nat, total: int, a: Selection, b: Selection)
    requires FreshPool(pool, others) && pool.ceiling >= 1 && depth >= 1 && !Same(a, b)
    ensures exists actions ::
      OnlySelects(Init(pool, others, depth, total), actions, a, b, false) && !AllMatch(Init(pool, others, depth, total), actions)
  {
    var s, calls := Init(pool, others, depth, total), TwoRegionRun(total - 1, a, b, 0);
    var prefix, p, o := RoomComes(pool, others, depth, total);
    CallsAlone(s, prefix + calls, a, b, false);
    RunSplit(s, prefix, calls);
    TwoRegionsMeet(p, o, depth, total, a, b, 0);
    assert !Matches(Run(s, prefix + calls).readers[1]);
    assert !AllMatch(s, prefix + calls);
  }

  /** `get_buffer` keeps its promise that a returned buffer matches the request, for callers
      that use the two selections `a` and `b`, with any look-ahead depth and any number of
      records, if and only if the two address the same region. */
  lemma MatchesIffSame(pool: Staging.Pool, others: set<nat>, depth: nat, total: int, a: Selection, b: Selection)
    requires FreshPool(pool, others) && pool.ceiling >= 1 && depth >= 1
    ensures Same(a, b) <==>
      forall actions :: OnlySelects(Init(pool, others, depth, total), actions, a, b, false) ==>
        AllMatch(Init(pool, others, depth, total), actions)
  {
    if Same(a, b) {
      forall actions | OnlySelects(Init(pool, others, depth, total), actions, a, b, false)
        ensures AllMatch(Init(pool, others, depth, total), actions)
      {
        SameSelectionsMatch(pool, others, depth, total, actions, a, b);
      }
    } else {
      DifferentSelectionsMismatch(pool, others, depth, total, a, b);
    }
  }

  lemma {:induction false} RunSplit(s: System, first: seq<Action>, second: seq<Action>)
    ensures Run(s, first + second) == Run(Run(s, first), second)
    decreases |first|
  {
    if first == [] {
      assert first + second == second;
    } else {
      assert (first + second)[1..] == first[1..] + second;
      RunSplit(Step(s, first[0]), first[1..], second);
    }
  }

  /******* Failures *******/

  /** `t` stays on record as failed in every state of the run. */
  ghost predicate FailedThroughout(s: System, actions: seq<Action>, t: int)
    decreases |actions|
  {
    t in s.q.failed && (actions != [] ==> FailedThroughout(Step(s, actions[0]), actions[1..], t))
  }

  /** The driver's reads after the first `n` are not of timestep `t`. */
  predicate NoReadSince(trail: seq<(int, Selection)>, n: nat, t: int) {
    n <= |trail| && forall i :: n <= i < |trail| ==> trail[i].0 != t
  }

  lemma StepReads(s: System, a: Action, n: nat, t: int)
    requires TrackingSound(s) && t in s.q.failed && NoReadSince(s.trail, n, t)
    ensures NoReadSince(Step(s, a).trail, n, t)
  {
    if Enabled(s, a) {
      if a.Moves? {
        SectionKeepsTrail(s, s.readers[a.reader]);
      } else if a.FetchReads? {
        assert s.fetches[a.fetch].timestep !in s.q.failed;
      }
    }
  }

  lemma SectionKeepsTrail(s: System, r: Reader)
    ensures Section(s, r).0.trail == s.trail
  {
    if SchedulesAt(r) {
    } else {
      RemovalSection(s, r);
    }
  }

  /** A recorded failure blocks every re-schedule: as long as it is on record no fetch of
      the timestep exists, and the driver is not asked for it. */
  lemma {:induction false} FailureBlocksFetching(s: System, actions: seq<Action>, n: nat, t: int)
    requires Inv(s) && FailedThroughout(s, actions, t) && NoReadSince(s.trail, n, t)
    ensures !Fetching(Run(s, actions), t) && NoReadSince(Run(s, actions).trail, n, t)
    decreases |actions|
  {
    if actions != [] {
      StepInv(s, actions[0]);
      StepReads(s, actions[0], n, t);
      FailureBlocksFetching(Step(s, actions[0]), actions[1..], n, t);
    }
  }

  /** A fetch that failed holds no buffer when it records the failure. */
  lemma FailedFetchHoldsNothing(s: System, f: nat, b: nat)
    requires Inv(s) && Open(s) && Enabled(s, FetchReleases(f)) && b == s.fetches[f].progress.buf
    ensures var s' := Step(s, FetchReleases(f));
      && s'.fetches[f].progress == Lost(BackendFailure)
      && !Staging.Referenced(s'.pool, b)
      && Step(s', FetchLands(f)).q.failed == s.q.failed[s.fetches[f].timestep := BackendFailure]
  {
    assert Owns(s, ByFetch(f), b);
    Staging.ReleaseFrame(s.pool, b);
    LostFetchLands(Step(s, FetchReleases(f)), f);
  }

  lemma LostFetchLands(s: System, f: nat)
    requires Open(s) && FetchAt(s, f, Lost(BackendFailure))
    ensures Step(s, FetchLands(f)).q.failed == s.q.failed[s.fetches[f].timestep := BackendFailure]
  {
  }

  /** The actions that may consume or clear the failure of `t` other than reader `id`: the
      end of a cancellation, and another reader of the same timestep. */
  predicate Disturbs(s: System, a: Action, id: nat, t: int) {
    || a.CancelEnds?
    || (a.Enters? && a.reader == id)
    || ((a.Moves? || a.Expires?) && a.reader != id && a.reader in s.readers && s.readers[a.reader].timestep == t)
  }

  ghost predicate Undisturbed(s: System, actions: seq<Action>, id: nat, t: int)
    decreases |actions|
  {
    actions != [] ==> !Disturbs(s, actions[0], id, t) && Undisturbed(Step(s, actions[0]), actions[1..], id, t)
  }

  /** Reader `id`, anywhere inside `get_buffer`, has not learned yet that `t` failed. */
  predicate AboutToLearn(s: System, id: nat, t: int, e: Status) {
    && id in s.readers && s.readers[id].timestep == t && !s.readers[id].place.Done?
    && t in s.q.failed && s.q.failed[t] == e
  }

  predicate Learned(s: System, id: nat, e: Status) {
    id in s.readers && s.readers[id].place == Failing(e)
  }

  /** A section of a call for a failed timestep leaves all failures on record and goes on,
      or consumes this one and reports it. */
  lemma SectionOnFailure(s: System, r: Reader)
    requires r.timestep in s.q.failed && r.timestep !in s.q.completed && !r.place.Done?
    ensures var (m, next) := Section(s, r); var t := r.timestep;
      (m.q.failed == s.q.failed && !next.Done?) || (m == Consume(s, t) && next == Failing(s.q.failed[t]))
  {
  }

  lemma SectionKeepsFailure(s: System, r: Reader, t: int)
    requires t in s.q.failed && r.timestep != t
    ensures var m := Section(s, r).0; t in m.q.failed && m.q.failed[t] == s.q.failed[t]
  {
    if SchedulesAt(r) {
      ScheduleKeepsFailed(s, if r.place.Kicking? then r.timestep + r.place.next else r.timestep);
    } else if !r.place.Kicking? {
      RemovalsKeepFailure(s, r.timestep, t);
    }
  }

  lemma ScheduleKeepsFailed(s: System, u: int)
    ensures Schedule(s, u).q.failed == s.q.failed && Schedule(s, u).readers == s.readers
  {
  }

  lemma RemovalsKeepFailure(s: System, u: int, t: int)
    requires t in s.q.failed && u != t
    ensures u in s.q.completed ==>
      && Take(s, u).q.failed == s.q.failed && Take(s, u).readers == s.readers
      && Drop(s, u).q.failed == s.q.failed && Drop(s, u).readers == s.readers
    ensures u in s.q.failed ==>
      && t in Consume(s, u).q.failed && Consume(s, u).q.failed[t] == s.q.failed[t] && Consume(s, u).readers == s.readers
  {
  }

  /** Some reader of `t` is told the failure `e` by this action. */
  ghost predicate Delivers(s: System, a: Action, t: int, e: Status) {
    && (a.Moves? || a.Expires?) && Enabled(s, a) && s.readers[a.reader].timestep == t && !s.readers[a.reader].place.Done?
    && Learned(Step(s, a), a.reader, e)
  }

  /** The failure of `t` is still on record. */
  predicate OnRecord(s: System, t: int, e: Status) {
    t in s.q.failed && s.q.failed[t] == e
  }

  lemma MoveOnFailure(s: System, id: nat, t: int, e: Status)
    requires TrackingSound(s) && OnRecord(s, t, e) && Enabled(s, Moves(id))
    ensures var s' := Step(s, Moves(id));
      && (OnRecord(s', t, e) || Delivers(s, Moves(id), t, e))
      && (s.readers[id].timestep == t && !s.readers[id].place.Done? ==> AboutToLearn(s', id, t, e) || Learned(s', id, e))
  {
    var r := s.readers[id];
    SectionNarrows(s, r);
    if r.timestep != t {
      SectionKeepsFailure(s, r, t);
    } else if !r.place.Done? {
      SectionOnFailure(s, r);
    }
  }

  lemma ExpireOnFailure(s: System, id: nat, t: int, e: Status)
    requires TrackingSound(s) && OnRecord(s, t, e) && Enabled(s, Expires(id))
    ensures var s' := Step(s, Expires(id));
      && (OnRecord(s', t, e) || Delivers(s, Expires(id), t, e))
      && (s.readers[id].timestep == t ==> Learned(s', id, e))
  {
  }

  lemma OtherStepOnFailure(s: System, a: Action, t: int, e: Status)
    requires TrackingSound(s) && OnRecord(s, t, e) && Enabled(s, a) && !a.CancelEnds? && !a.Moves? && !a.Expires?
    ensures OnRecord(Step(s, a), t, e) && (!a.Enters? ==> Step(s, a).readers == s.readers)
  {
    if a.FetchLands? {
      LandOnFailure(s, a.fetch, t, e);
    } else if a.Schedules? {
      ScheduleKeepsFailed(s, a.timestep);
    } else if a.CancelReleases? {
      if s.closing.value[0] in s.q.completed { DropKeepsFailed(s, s.closing.value[0]); }
    } else {
      RestOnFailure(s, a);
    }
  }

  lemma LandOnFailure(s: System, f: nat, t: int, e: Status)
    requires TrackingSound(s) && OnRecord(s, t, e) && Enabled(s, FetchLands(f))
    ensures OnRecord(Land(s, f), t, e) && Land(s, f).readers == s.readers
  {
    assert s.fetches[f].timestep !in s.q.failed;
  }

  lemma RestOnFailure(s: System, a: Action)
    requires Enabled(s, a) && !a.Moves? && !a.Expires? && !a.FetchLands? && !a.Schedules? && !a.CancelReleases? && !a.CancelEnds?
    ensures Apply(s, a).q.failed == s.q.failed && (!a.Enters? ==> Apply(s, a).readers == s.readers)
  {
  }

  lemma DropKeepsFailed(s: System, u: int)
    requires u in s.q.completed
    ensures Drop(s, u).q.failed == s.q.failed && Drop(s, u).readers == s.readers
  {
  }

  lemma StepOnFailure(s: System, a: Action, id: nat, t: int, e: Status)
    requires TrackingSound(s) && AboutToLearn(s, id, t, e) && Enabled(s, a) && !Disturbs(s, a, id, t)
    ensures AboutToLearn(Step(s, a), id, t, e) || Learned(Step(s, a), id, e)
  {
    if a.Moves? {
      MoveOnFailure(s, a.reader, t, e);
      if a.reader != id { OthersStay(s, a, id); }
    } else if a.Expires? {
      ExpireOnFailure(s, a.reader, t, e);
      if a.reader != id { OthersStay(s, a, id); }
    } else {
      OtherStepOnFailure(s, a, t, e);
    }
  }

  lemma OthersStay(s: System, a: Action, id: nat)
    requires Enabled(s, a) && (a.Moves? || a.Expires?) && a.reader != id && id in s.readers
    ensures id in Step(s, a).readers && Step(s, a).readers[id] == s.readers[id]
  {
    if a.Moves? { SectionNarrows(s, s.readers[a.reader]); }
  }

  lemma LearnedStays(s: System, a: Action, id: nat, t: int, e: Status)
    requires Learned(s, id, e) && Enabled(s, a) && !Disturbs(s, a, id, t)
    ensures Learned(Step(s, a), id, e)
  {
    if a.Moves? {
      SectionNarrows(s, s.readers[a.reader]);
    }
  }

  /** A failure is not masked: a call for a failed timestep, wherever it stands, can only
      return that failure with a null buffer, unless a cancellation ends or another reader
      of the same timestep gets there first. */
  lemma {:induction false} FailureIsDelivered(s: System, actions: seq<Action>, id: nat, t: int, e: Status)
    requires Inv(s) && (AboutToLearn(s, id, t, e) || Learned(s, id, e)) && Undisturbed(s, actions, id, t)
    ensures var s' := Run(s, actions); AboutToLearn(s', id, t, e) || Learned(s', id, e)
    decreases |actions|
  {
    if actions != [] {
      var a := actions[0];
      StepInv(s, a);
      if Enabled(s, a) {
        if Learned(s, id, e) {
          LearnedStays(s, a, id, t, e);
        } else {
          StepOnFailure(s, a, id, t, e);
        }
      }
      FailureIsDelivered(Step(s, a), actions[1..], id, t, e);
    }
  }

  /** In the run some reader of `t` is told the failure, or a cancellation ends. */
  ghost predicate Accounted(s: System, actions: seq<Action>, t: int, e: Status)
    decreases |actions|
  {
    actions != [] &&
      (Delivers(s, actions[0], t, e) || (actions[0].CancelEnds? && Enabled(s, actions[0]))
       || Accounted(Step(s, actions[0]), actions[1..], t, e))
  }

  /** Nor is it lost, however many readers there are: it stays on record until one of them
      is told, or a cancellation ends. */
  lemma {:induction false} FailureIsNotLost(s: System, actions: seq<Action>, t: int, e: Status)
    requires Inv(s) && OnRecord(s, t, e)
    ensures OnRecord(Run(s, actions), t, e) || Accounted(s, actions, t, e)
    decreases |actions|
  {
    if actions != [] {
      var a := actions[0];
      StepInv(s, a);
      if Enabled(s, a) && !a.CancelEnds? {
        if a.Moves? {
          MoveOnFailure(s, a.reader, t, e);
        } else if a.Expires? {
          ExpireOnFailure(s, a.reader, t, e);
        } else {
          OtherStepOnFailure(s, a, t, e);
        }
      }
      if OnRecord(Step(s, a), t, e) {
        FailureIsNotLost(Step(s, a), actions[1..], t, e);
      }
    }
  }

  /** Whoever has called `get_buffer` has opened the look-ahead window. */
  predicate Kicked(s: System) {
    s.readers != map[] ==> s.q.kicked
  }

  lemma {:induction false} RunKeepsKicked(s: System, actions: seq<Action>)
    requires Kicked(s)
    ensures Kicked(Run(s, actions))
    decreases |actions|
  {
    if actions != [] {
      StepKeepsKicked(s, actions[0]);
      RunKeepsKicked(Step(s, actions[0]), actions[1..]);
    }
  }

  lemma StepKeepsKicked(s: System, a: Action)
    requires Kicked(s)
    ensures Kicked(Step(s, a))
  {
    if Enabled(s, a) && a.Moves? {
      SectionKeepsKicked(s, s.readers[a.reader]);
    }
  }

  lemma SectionKeepsKicked(s: System, r: Reader)
    ensures Section(s, r).0.q.kicked == s.q.kicked
  {
    if !SchedulesAt(r) { RemovalSection(s, r); }
  }

  /** A call for an untracked timestep, once the window is open, fetches it with the
      caller's selection. */
  lemma NextCallFetches(s: System, id: nat, t: int, sel: Selection)
    requires Open(s) && !s.q.cancelled && s.q.kicked && !Tracked(s.q, t) && (id !in s.readers || s.readers[id].place.Done?)
    ensures var r := Step(Step(Step(s, Enters(id, t, sel)), Moves(id)), Moves(id));
      && r.fetches == s.fetches[s.nextFetch := Fetch(t, sel, Dispatched)] && t in r.q.pending
      && r.readers[id] == Reader(t, sel, Looping)
  {
    var s1 := Step(s, Enters(id, t, sel));
    assert s1.readers[id] == Reader(t, sel, Checking) && s1.q == s.q.(latched := sel);
    var s2 := Step(s1, Moves(id));
    assert s2.readers[id] == Reader(t, sel, Scheduling) && s2.q == s1.q && s2.fetches == s.fetches && s2.nextFetch == s.nextFetch;
  }

  /** Delivering a failure consumes it: the timestep is untracked then, and the next call
      for it, by any reader and with any selection, fetches it afresh. */
  lemma DeliveredFailureIsRefetched(pool: Staging.Pool, others: set<nat>, depth: nat, total: int, actions: seq<Action>,
                                    a: Action, t: int, e: Status, id: nat, sel: Selection)
    requires FreshPool(pool, others)
    requires var s := Run(Init(pool, others, depth, total), actions);
      && OnRecord(s, t, e) && !s.q.cancelled && Delivers(s, a, t, e)
      && (id !in Step(s, a).readers || Step(s, a).readers[id].place.Done?)
    ensures var s' := Step(Run(Init(pool, others, depth, total), actions), a);
      var r := Step(Step(Step(s', Enters(id, t, sel)), Moves(id)), Moves(id));
      && !Tracked(s'.q, t)
      && r.fetches == s'.fetches[s'.nextFetch := Fetch(t, sel, Dispatched)] && t in r.q.pending
      && r.readers[id] == Reader(t, sel, Looping)
  {
    InitInv(pool, others, depth, total);
    RunInv(Init(pool, others, depth, total), actions);
    RunKeepsKicked(Init(pool, others, depth, total), actions);
    var s := Run(Init(pool, others, depth, total), actions);
    StepKeepsKicked(s, a);
    DeliveryConsumes(s, a, t, e);
    NextCallFetches(Step(s, a), id, t, sel);
  }

  lemma DeliveryConsumes(s: System, a: Action, t: int, e: Status)
    requires TrackingSound(s) && OnRecord(s, t, e) && !s.q.cancelled && Delivers(s, a, t, e)
    ensures var s' := Step(s, a);
      !Tracked(s'.q, t) && !s'.q.cancelled && Open(s') && s'.readers != map[]
  {
    assert t in s.q.pending ==> Fetching(s, t);
    var id := a.reader;
    if a.Moves? {
      SectionOnFailure(s, s.readers[id]);
    }
    assert id in Step(s, a).readers;
  }
}
