/**
 The synchronous prefetch queue refines the concurrent one: what a call does on one
 thread is one of the concurrent runs, so every guarantee about runs holds of it.  It also
 never waits: an uncancelled call answers at once, with the right buffer or the failure.
 */
module SyncRefinement {
  import opened Common
  import opened Selections
  import opened Prefetch
  import opened PrefetchSync
  import Staging

  ghost predicate Reaches(s: System, s': System) {
    exists actions :: Run(s, actions) == s'
  }

  lemma ReachesStep(s: System, a: Action)
    ensures Reaches(s, Step(s, a))
  {
    assert [a] + [] == [a];
    RunOne(s, a, []);
    assert Run(s, [a]) == Step(s, a);
  }

  lemma ReachesThen(s: System, m: System, s': System)
    requires Reaches(s, m) && Reaches(m, s')
    ensures Reaches(s, s')
  {
    var a :| Run(s, a) == m;
    var b :| Run(m, b) == s';
    RunSplit(s, a, b);
    assert Run(s, a + b) == s';
  }

  lemma ReachesSelf(s: System)
    ensures Reaches(s, s)
  {
    assert Run(s, []) == s;
  }

  /** The state with reader `id` at a given place. */
  function At(s: System, id: nat, t: int, sel: Selection, place: Place): System {
    s.(readers := s.readers[id := Reader(t, sel, place)])
  }

  predicate IsFetchStep(a: Action) {
    a.FetchStarts? || a.FetchAcquires? || a.FetchGivesUp? || a.FetchReads? || a.FetchReleases? || a.FetchLands?
  }

  /** Fetches do not look at readers. */
  lemma FetchStepIgnoresReaders(s: System, a: Action, id: nat, r: Reader)
    requires IsFetchStep(a)
    ensures Step(s.(readers := s.readers[id := r]), a) == var m := Step(s, a); m.(readers := m.readers[id := r])
    ensures Step(s, a).readers == s.readers && Step(s, a).closing == s.closing
  {
    if a.FetchAcquires? || a.FetchGivesUp? {
      AcquireIgnoresReaders(s, a, id, r);
    } else if a.FetchStarts? || a.FetchLands? {
      EndsIgnoreReaders(s, a, id, r);
    } else {
      ReadIgnoresReaders(s, a, id, r);
    }
  }

  lemma AcquireIgnoresReaders(s: System, a: Action, id: nat, r: Reader)
    requires a.FetchAcquires? || a.FetchGivesUp?
    ensures Step(s.(readers := s.readers[id := r]), a) == var m := Step(s, a); m.(readers := m.readers[id := r])
    ensures Step(s, a).readers == s.readers && Step(s, a).closing == s.closing
  {
    assert Enabled(s.(readers := s.readers[id := r]), a) == Enabled(s, a);
  }

  lemma EndsIgnoreReaders(s: System, a: Action, id: nat, r: Reader)
    requires a.FetchStarts? || a.FetchLands?
    ensures Step(s.(readers := s.readers[id := r]), a) == var m := Step(s, a); m.(readers := m.readers[id := r])
    ensures Step(s, a).readers == s.readers && Step(s, a).closing == s.closing
  {
    assert Enabled(s.(readers := s.readers[id := r]), a) == Enabled(s, a);
  }

  lemma ReadIgnoresReaders(s: System, a: Action, id: nat, r: Reader)
    requires a.FetchReads? || a.FetchReleases?
    ensures Step(s.(readers := s.readers[id := r]), a) == var m := Step(s, a); m.(readers := m.readers[id := r])
    ensures Step(s, a).readers == s.readers && Step(s, a).closing == s.closing
  {
    assert Enabled(s.(readers := s.readers[id := r]), a) == Enabled(s, a);
  }

  lemma {:induction false} FetchRunIgnoresReaders(s: System, actions: seq<Action>, id: nat, r: Reader)
    requires forall i :: 0 <= i < |actions| ==> IsFetchStep(actions[i])
    ensures Run(s.(readers := s.readers[id := r]), actions) == var m := Run(s, actions); m.(readers := m.readers[id := r])
    ensures Run(s, actions).readers == s.readers && Run(s, actions).closing == s.closing
    decreases |actions|
  {
    if actions != [] {
      FetchStepIgnoresReaders(s, actions[0], id, r);
      FetchRunIgnoresReaders(Step(s, actions[0]), actions[1..], id, r);
    }
  }

  /** Scheduling and then letting the fetch run to its end. */
  lemma ScheduleReaches(s: System, u: int, d: Backend, id: nat, r: Reader)
    ensures var x := Schedule(s, u); var y := SyncSchedule(s, u, d);
      Reaches(x.(readers := x.readers[id := r]), y.(readers := y.readers[id := r])) && y.readers == s.readers && y.closing == s.closing
  {
    var x := Schedule(s, u);
    if s.q.cancelled || Tracked(s.q, u) {
      ReachesSelf(x.(readers := x.readers[id := r]));
    } else {
      FetchRunIgnoresReaders(x, Script(s.nextFetch, d.bytes(s.q.latched), d.ok(|s.trail|)), id, r);
    }
  }

  /** One critical section that schedules: then the fetch runs before the caller goes on. */
  lemma MoveAndFetch(s: System, id: nat, t: int, sel: Selection, place: Place, u: int, next: Place, d: Backend)
    requires Open(s)
    requires Section(s, Reader(t, sel, place)) == (Schedule(s, u), next)
    ensures Reaches(At(s, id, t, sel, place), At(SyncSchedule(s, u, d), id, t, sel, next))
    ensures Open(SyncSchedule(s, u, d))
  {
    ScheduleIgnoresReaders(s, id, t, sel, place, u, next);
    ReachesStep(At(s, id, t, sel, place), Moves(id));
    ScheduleReaches(s, u, d, id, Reader(t, sel, next));
    ReachesThen(At(s, id, t, sel, place), At(Schedule(s, u), id, t, sel, next), At(SyncSchedule(s, u, d), id, t, sel, next));
  }

  lemma ScheduleIgnoresReaders(s: System, id: nat, t: int, sel: Selection, place: Place, u: int, next: Place)
    requires Open(s)
    requires Section(s, Reader(t, sel, place)) == (Schedule(s, u), next)
    ensures Step(At(s, id, t, sel, place), Moves(id)) == At(Schedule(s, u), id, t, sel, next)
  {
    SectionIgnoresReaders(s, id, t, sel, place);
  }

  /** A critical section does not look at the table of readers. */
  lemma SectionIgnoresReaders(s: System, id: nat, t: int, sel: Selection, place: Place)
    requires Open(s)
    ensures var (m, next) := Section(s, Reader(t, sel, place));
      Step(At(s, id, t, sel, place), Moves(id)) == At(m, id, t, sel, next) && m.readers == s.readers
  {
    var r := Reader(t, sel, place);
    var a := At(s, id, t, sel, place);
    SectionCommutes(s, r, a.readers);
    SectionNarrows(s, r);
    assert a.readers[id := Reader(t, sel, Section(s, r).1)] == s.readers[id := Reader(t, sel, Section(s, r).1)];
  }

  lemma SectionCommutes(s: System, r: Reader, readers: map<nat, Reader>)
    ensures Section(s.(readers := readers), r) == (Section(s, r).0.(readers := readers), Section(s, r).1)
  {
    if SchedulesAt(r) {
      ScheduleCommutes(s, if r.place.Kicking? then r.timestep + r.place.next else r.timestep, readers);
    } else {
      RemovalsCommute(s, r.timestep, readers);
    }
  }

  lemma ScheduleCommutes(s: System, u: int, readers: map<nat, Reader>)
    ensures Schedule(s.(readers := readers), u) == Schedule(s, u).(readers := readers)
  {
  }

  lemma RemovalsCommute(s: System, t: int, readers: map<nat, Reader>)
    ensures var x := s.(readers := readers);
      && (t in s.q.completed ==>
            && Take(x, t) == Take(s, t).(readers := readers) && Drop(x, t) == Drop(s, t).(readers := readers)
            && Served(x, t, true) == Served(s, t, true) && Served(x, t, false) == Served(s, t, false))
      && (t in s.q.failed ==> Consume(x, t) == Consume(s, t).(readers := readers))
  {
  }

  lemma ExpiryCommutes(s: System, t: int, readers: map<nat, Reader>)
    ensures Expiry(s.(readers := readers), t) == (Expiry(s, t).0.(readers := readers), Expiry(s, t).1)
    ensures Expiry(s, t).0.readers == s.readers && Expiry(s, t).1.Done?
  {
    RemovalsCommute(s, t, readers);
  }

  lemma MoveOnly(s: System, id: nat, t: int, sel: Selection, place: Place)
    requires Open(s)
    ensures var (m, next) := Section(s, Reader(t, sel, place));
      Reaches(At(s, id, t, sel, place), At(m, id, t, sel, next))
  {
    SectionIgnoresReaders(s, id, t, sel, place);
    ReachesStep(At(s, id, t, sel, place), Moves(id));
  }

  /** The call ended with this answer. */
  ghost predicate Answered(m: System, id: nat, t: int, sel: Selection, a: Answer) {
    exists compared, was :: m == At(a.state, id, t, sel, Done(a.status, a.buf, compared, was))
  }

  ghost predicate Ends(s: System, id: nat, t: int, sel: Selection, place: Place, a: Answer) {
    exists compared, was :: Reaches(At(s, id, t, sel, place), At(a.state, id, t, sel, Done(a.status, a.buf, compared, was)))
  }

  lemma EndsNow(s: System, id: nat, t: int, sel: Selection, place: Place, a: Answer)
    requires Open(s)
    requires var (m, next) := Section(s, Reader(t, sel, place)); m == a.state && next.Done? && next.status == a.status && next.buf == a.buf
    ensures Ends(s, id, t, sel, place, a)
  {
    MoveOnly(s, id, t, sel, place);
    var next := Section(s, Reader(t, sel, place)).1;
    assert next == Done(a.status, a.buf, next.compared, next.was);
  }

  lemma EndsLater(s: System, m: System, id: nat, t: int, sel: Selection, place: Place, next: Place, a: Answer)
    requires Reaches(At(s, id, t, sel, place), At(m, id, t, sel, next)) && Ends(m, id, t, sel, next, a)
    ensures Ends(s, id, t, sel, place, a)
  {
    var compared, was :| Reaches(At(m, id, t, sel, next), At(a.state, id, t, sel, Done(a.status, a.buf, compared, was)));
    ReachesThen(At(s, id, t, sel, place), At(m, id, t, sel, next), At(a.state, id, t, sel, Done(a.status, a.buf, compared, was)));
  }

  lemma ExpiryEnds(s: System, id: nat, t: int, sel: Selection)
    requires Open(s)
    ensures var (m, place) := Expiry(s, t); Ends(s, id, t, sel, Waiting, Answer(m, place.status, place.buf))
  {
    var w := At(s, id, t, sel, Waiting);
    var (m, place) := Expiry(s, t);
    ReachesStep(w, Expires(id));
    ExpiryCommutes(s, t, w.readers);
    assert w.readers[id := Reader(t, sel, place)] == s.readers[id := Reader(t, sel, place)];
    assert Step(w, Expires(id)) == At(m, id, t, sel, place);
    assert place == Done(place.status, place.buf, place.compared, place.was);
  }

  predicate AtTail(s: System, t: int, place: Place) {
    place.Tailing? || (place.Looping? && t !in s.q.completed)
  }

  lemma {:induction false} WaitEnds(s: System, id: nat, t: int, sel: Selection, d: Backend, wakes: nat, place: Place)
    requires Open(s)
    requires AtTail(s, t, place)
    ensures Ends(s, id, t, sel, place, SyncWait(s, t, sel, d, wakes))
    decreases wakes, 0
  {
    var a := SyncWait(s, t, sel, d, wakes);
    if t in s.q.failed || s.q.cancelled {
      EndsNow(s, id, t, sel, place, a);
    } else {
      MoveOnly(s, id, t, sel, place);
      if wakes > 0 {
        MoveOnly(s, id, t, sel, Waiting);
        LoopEnds(s, id, t, sel, d, wakes - 1);
        EndsLater(s, s, id, t, sel, Waiting, Looping, a);
      } else {
        ExpiryEnds(s, id, t, sel);
      }
      EndsLater(s, s, id, t, sel, place, Waiting, a);
    }
  }

  lemma {:induction false} LoopEnds(s: System, id: nat, t: int, sel: Selection, d: Backend, wakes: nat)
    requires Open(s)
    ensures Ends(s, id, t, sel, Looping, SyncLoop(s, t, sel, d, wakes))
    decreases wakes, 1
  {
    var a := SyncLoop(s, t, sel, d, wakes);
    if t !in s.q.completed {
      WaitEnds(s, id, t, sel, d, wakes, Looping);
    } else if Same(Recorded(s.q, t), sel) {
      EndsNow(s, id, t, sel, Looping, a);
    } else {
      var m := SyncSchedule(Drop(s, t), t, d);
      MoveAndFetch(Drop(s, t), id, t, sel, Rescheduling, t, Tailing, d);
      WaitEnds(m, id, t, sel, d, wakes, Tailing);
      EndsLater(Drop(s, t), m, id, t, sel, Rescheduling, Tailing, a);
      MoveOnly(s, id, t, sel, Looping);
      EndsLater(s, Drop(s, t), id, t, sel, Looping, Rescheduling, a);
    }
  }

  lemma {:induction false} KickReaches(s: System, id: nat, t: int, sel: Selection, k: int, count: int, d: Backend)
    requires Open(s)
    ensures Reaches(At(s, id, t, sel, Kicking(k, count)), At(SyncKick(s, t, k, count, d), id, t, sel, Checking))
    ensures Open(SyncKick(s, t, k, count, d))
    decreases count - k
  {
    if k < count {
      var m := SyncSchedule(s, t + k, d);
      MoveAndFetch(s, id, t, sel, Kicking(k, count), t + k, Kicking(k + 1, count), d);
      KickReaches(m, id, t, sel, k + 1, count, d);
      ReachesThen(At(s, id, t, sel, Kicking(k, count)), At(m, id, t, sel, Kicking(k + 1, count)),
                  At(SyncKick(s, t, k, count, d), id, t, sel, Checking));
    } else {
      MoveOnly(s, id, t, sel, Kicking(k, count));
    }
  }

  lemma EnterReaches(s: System, id: nat, t: int, sel: Selection, d: Backend)
    requires Open(s)
    requires id !in s.readers || s.readers[id].place.Done?
    ensures Reaches(s, At(SyncEnter(s, t, sel, d), id, t, sel, Checking)) && Open(SyncEnter(s, t, sel, d))
  {
    var m := s.(q := s.q.(latched := sel, kicked := true));
    ReachesStep(s, Enters(id, t, sel));
    if !s.q.kicked {
      assert Step(s, Enters(id, t, sel)) == At(m, id, t, sel, Kicking(0, Ahead(s, t)));
      KickReaches(m, id, t, sel, 0, Ahead(s, t), d);
      ReachesThen(s, At(m, id, t, sel, Kicking(0, Ahead(s, t))), At(SyncEnter(s, t, sel, d), id, t, sel, Checking));
    }
  }

  lemma CheckEnds(m: System, id: nat, t: int, sel: Selection, d: Backend, wakes: nat)
    requires Open(m)
    requires t !in m.q.failed && !(t in m.q.completed && Same(Recorded(m.q, t), sel))
    ensures var n := if t in m.q.completed then Drop(m, t) else m;
      Ends(m, id, t, sel, Checking, SyncLoop(if t in n.q.pending then n else SyncSchedule(n, t, d), t, sel, d, wakes))
  {
    var n := if t in m.q.completed then Drop(m, t) else m;
    var next := if t in n.q.pending then n else SyncSchedule(n, t, d);
    var a := SyncLoop(next, t, sel, d, wakes);
    MoveOnly(m, id, t, sel, Checking);
    if t in n.q.pending {
      LoopEnds(next, id, t, sel, d, wakes);
      EndsLater(m, n, id, t, sel, Checking, Looping, a);
    } else {
      MoveAndFetch(n, id, t, sel, Scheduling, t, Looping, d);
      LoopEnds(next, id, t, sel, d, wakes);
      EndsLater(n, next, id, t, sel, Scheduling, Looping, a);
      EndsLater(m, n, id, t, sel, Checking, Scheduling, a);
    }
  }

  /** Whatever `get_buffer` does without a worker pool, the concurrent queue can do too. */
  lemma SyncGetIsARun(s: System, id: nat, t: int, sel: Selection, d: Backend, wakes: nat)
    requires Open(s)
    requires id !in s.readers || s.readers[id].place.Done?
    ensures exists m :: Reaches(s, m) && Answered(m, id, t, sel, SyncGet(s, t, sel, d, wakes))
  {
    var m := SyncEnter(s, t, sel, d);
    var a := SyncGet(s, t, sel, d, wakes);
    EnterReaches(s, id, t, sel, d);
    if t in m.q.failed || (t in m.q.completed && Same(Recorded(m.q, t), sel)) {
      EndsNow(m, id, t, sel, Checking, a);
    } else {
      CheckEnds(m, id, t, sel, d, wakes);
    }
    var compared, was :| Reaches(At(m, id, t, sel, Checking), At(a.state, id, t, sel, Done(a.status, a.buf, compared, was)));
    var end := At(a.state, id, t, sel, Done(a.status, a.buf, compared, was));
    ReachesThen(s, At(m, id, t, sel, Checking), end);
    assert Answered(end, id, t, sel, a);
  }

  /******* No waiting *******/

  /** Between the calls of one thread. */
  ghost predicate Idle(s: System) {
    Inv(s) && Quiet(s) && !s.q.cancelled
  }

  /** A fetch of an untracked timestep ends as staged, with the latched selection, or as
      failed; there is no third outcome. */
  lemma SyncScheduleSettles(s: System, t: int, d: Backend)
    requires Staging.Valid(s.pool) && Quiet(s) && !s.q.cancelled && !Tracked(s.q, t)
    ensures Settled(s, SyncSchedule(s, t, d), t)
  {
    SyncScheduleOutcome(s, t, d);
    OutcomeSettles(s, Outcome(s, t, d), t, d);
  }

  /** Staged with the latched selection, or failed; nothing else. */
  ghost predicate Settled(s: System, m: System, t: int) {
    && Quiet(m) && !m.q.cancelled && m.q.latched == s.q.latched
    && (t in m.q.completed <==> t !in m.q.failed)
    && (t in m.q.completed ==> Recorded(m.q, t) == s.q.latched)
    && (t in m.q.failed ==> m.q.failed[t] in {StagingBackpressure, BackendFailure})
  }

  lemma StockedSettles(s: System, t: int, i: nat, p: Staging.Pool)
    requires Quiet(s) && !s.q.cancelled && !Tracked(s.q, t)
    ensures Settled(s, Stocked(s, t, i, p), t)
  {
  }

  lemma BotchedSettles(s: System, t: int, e: Status, p: Staging.Pool, content: map<nat, (int, Selection)>, trail: seq<(int, Selection)>)
    requires Quiet(s) && !s.q.cancelled && !Tracked(s.q, t) && e in {StagingBackpressure, BackendFailure}
    ensures Settled(s, Botched(s, t, e, p, content, trail), t)
  {
  }

  lemma OutcomeSettles(s: System, m: System, t: int, d: Backend)
    requires Staging.InRange(s.pool) && Quiet(s) && !s.q.cancelled && !Tracked(s.q, t) && m == Outcome(s, t, d)
    ensures Settled(s, m, t)
  {
    var (p, r) := Staging.TryAcquire(s.pool, d.bytes(s.q.latched));
    if r.None? {
      BotchedSettles(s, t, StagingBackpressure, s.pool, s.content, s.trail);
    } else {
      StockedSettles(s, t, r.value, p);
      BotchedSettles(s, t, BackendFailure, ReleaseIfHeld(p, r.value), s.content - {r.value}, s.trail + [(t, s.q.latched)]);
    }
  }

  lemma SyncScheduleInv(s: System, t: int, d: Backend)
    requires Inv(s)
    ensures Inv(SyncSchedule(s, t, d))
  {
    StepInv(s, Schedules(t));
    RunInv(Schedule(s, t), Script(s.nextFetch, d.bytes(s.q.latched), d.ok(|s.trail|)));
  }

  lemma SyncScheduleIdle(s: System, t: int, d: Backend)
    requires Idle(s)
    ensures Idle(SyncSchedule(s, t, d)) && SyncSchedule(s, t, d).q.latched == s.q.latched
  {
    SyncScheduleInv(s, t, d);
    if !Tracked(s.q, t) {
      SyncScheduleSettles(s, t, d);
    }
  }

  lemma {:induction false} KickKeeps(inv: System -> bool, s: System, t: int, k: int, count: int, d: Backend)
    requires inv(s) && forall m, u :: inv(m) ==> inv(SyncSchedule(m, u, d))
    ensures inv(SyncKick(s, t, k, count, d))
    decreases count - k
  {
    if k < count {
      KickKeeps(inv, SyncSchedule(s, t + k, d), t, k + 1, count, d);
    }
  }

  ghost function IdleWith(latched: Selection): System -> bool {
    (m: System) => Idle(m) && m.q.latched == latched
  }

  lemma SyncKickIdle(s: System, t: int, k: int, count: int, d: Backend)
    requires IdleWith(s.q.latched)(s)
    ensures IdleWith(s.q.latched)(SyncKick(s, t, k, count, d))
  {
    forall m, u | IdleWith(s.q.latched)(m) ensures IdleWith(s.q.latched)(SyncSchedule(m, u, d)) {
      SyncScheduleIdle(m, u, d);
    }
    KickKeeps(IdleWith(s.q.latched), s, t, k, count, d);
  }

  lemma SyncEnterIdle(s: System, t: int, sel: Selection, d: Backend)
    requires Idle(s)
    ensures Idle(SyncEnter(s, t, sel, d)) && SyncEnter(s, t, sel, d).q.latched == sel
  {
    var m := s.(q := s.q.(latched := sel, kicked := true));
    LatchKeepsInv(s, m);
    SyncKickIdle(m, t, 0, Ahead(s, t), d);
  }

  lemma LatchKeepsInv(s: System, m: System)
    requires Inv(s) && m == s.(q := s.q.(latched := m.q.latched, kicked := m.q.kicked))
    ensures Inv(m)
  {
    ForgettingKeepsTracking(s, m);
    SameHoldingsConserve(s, m);
    NarrowingKeepsContents(s, m);
  }

  /** Dropping a stale buffer keeps the thread's view of the queue sound. */
  lemma DropIdle(s: System, t: int)
    requires Idle(s) && t in s.q.completed && t !in s.q.failed
    ensures Idle(Drop(s, t)) && !Tracked(Drop(s, t).q, t) && Drop(s, t).q.latched == s.q.latched
  {
    RemovalsNarrow(s, t);
    DropForgets(s, t);
    ForgettingKeepsTracking(s, Drop(s, t));
    DropConserves(s, t);
    NarrowingKeepsContents(s, Drop(s, t));
  }

  /** The answer of a call that found nothing usable: fetch, then hand out or report. */
  lemma FetchedAnswer(n: System, t: int, sel: Selection, d: Backend, wakes: nat)
    requires Idle(n) && !Tracked(n.q, t) && n.q.latched == sel
    ensures var m := SyncSchedule(n, t, d);
      && Idle(m)
      && (t in m.q.completed || t in m.q.failed)
      && (t in m.q.completed ==> Recorded(m.q, t) == sel)
      && SyncLoop(m, t, sel, d, wakes) == (
           if t in m.q.completed then Answer(Take(m, t), Ok, Some(m.q.completed[t]))
           else Answer(Consume(m, t), m.q.failed[t], None))
  {
    SyncScheduleIdle(n, t, d);
    SyncScheduleSettles(n, t, d);
  }

  /** The answer carries a buffer exactly when it is AMIO_OK, and then that buffer was read
      for this timestep with the requested selection. */
  ghost predicate Exact(a: Answer, t: int, sel: Selection) {
    if a.status == Ok then
      a.buf.Some? && exists read :: Content(a.state, a.buf.value) == Some((t, read)) && Same(read, sel)
    else a.buf == None
  }

  lemma TakenIsExact(m: System, t: int, sel: Selection)
    requires StagedSound(m) && t in m.q.completed && Same(Recorded(m.q, t), sel)
    ensures Exact(Answer(Take(m, t), Ok, Some(m.q.completed[t])), t, sel)
  {
    assert Content(m, m.q.completed[t]) == Some((t, Recorded(m.q, t)));
    assert Content(Take(m, t), m.q.completed[t]) == Some((t, Recorded(m.q, t)));
  }

  /** Without a worker pool `get_buffer` never waits: spurious wakeups make no difference,
      so the expiry check, which compares nothing, is never reached, and the header's
      promise that the returned buffer always matches does hold. */
  lemma SyncNeverWaits(s: System, t: int, sel: Selection, d: Backend, wakes: nat)
    requires Idle(s)
    ensures var a := SyncGet(s, t, sel, d, wakes); a == SyncGet(s, t, sel, d, 0) && Exact(a, t, sel)
  {
    var m := SyncEnter(s, t, sel, d);
    SyncEnterIdle(s, t, sel, d);
    if t in m.q.failed {
    } else if t in m.q.completed && Same(Recorded(m.q, t), sel) {
      TakenIsExact(m, t, sel);
    } else {
      if t in m.q.completed { DropIdle(m, t); }
      var n := if t in m.q.completed then Drop(m, t) else m;
      FetchedIsExact(n, t, sel, d, wakes);
    }
  }

  lemma FetchedIsExact(n: System, t: int, sel: Selection, d: Backend, wakes: nat)
    requires Idle(n) && !Tracked(n.q, t) && n.q.latched == sel
    ensures var a := SyncLoop(SyncSchedule(n, t, d), t, sel, d, wakes);
      a == SyncLoop(SyncSchedule(n, t, d), t, sel, d, 0) && Exact(a, t, sel)
  {
    FetchedAnswer(n, t, sel, d, wakes);
    FetchedAnswer(n, t, sel, d, 0);
    var m := SyncSchedule(n, t, d);
    if t in m.q.completed { TakenIsExact(m, t, sel); }
  }
}
