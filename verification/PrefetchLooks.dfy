/**
 What one look of `get_buffer` at its timestep does, over all runs of the concurrent queue:
 a matching buffer is handed out at once, a stale one is released and fetched afresh, a
 cancelled queue answers with a failure, and only a landing after the last look can make an
 expired call succeed.
 */
module PrefetchLooks {
  import opened Common
  import opened Selections
  import opened Prefetch
  import Staging

  /** Reader `id` is about to look at its timestep. */
  predicate Looks(s: System, id: nat) {
    Open(s) && id in s.readers && (s.readers[id].place.Checking? || s.readers[id].place.Looping?)
  }

  /** At a look, timestep `t` of reader `id` is staged with the region it asked for. */
  ghost predicate SeesMatch(s: System, id: nat) {
    Looks(s, id) && s.readers[id].timestep in s.q.completed && Same(Recorded(s.q, s.readers[id].timestep), s.readers[id].sel)
  }

  /** At a look, it is staged with another region. */
  ghost predicate SeesStale(s: System, id: nat) {
    Looks(s, id) && s.readers[id].timestep in s.q.completed && !Same(Recorded(s.q, s.readers[id].timestep), s.readers[id].sel)
  }

  /******* A match *******/

  lemma TakesMatch(s: System, id: nat)
    requires TrackingSound(s) && SeesMatch(s, id)
    ensures var t := s.readers[id].timestep; var b := s.q.completed[t]; var s' := Step(s, Moves(id));
      && s'.readers[id].place.Done? && s'.readers[id].place.status == Ok && s'.readers[id].place.buf == Some(b)
      && b in s'.handed && t !in s'.q.completed && s'.pool == s.pool
  {
    assert s.readers[id].timestep !in s.q.failed;
  }

  /** In every run a look that finds the requested region staged hands that buffer to the
      caller at once, still referenced and no longer tracked. */
  lemma MatchIsServed(pool: Staging.Pool, others: set<nat>, depth: nat, total: int, actions: seq<Action>, id: nat)
    requires FreshPool(pool, others) && SeesMatch(Run(Init(pool, others, depth, total), actions), id)
    ensures var s := Run(Init(pool, others, depth, total), actions); var s' := Step(s, Moves(id));
      var t := s.readers[id].timestep; var b := s.q.completed[t];
      && s'.readers[id].place.Done? && s'.readers[id].place.status == Ok && s'.readers[id].place.buf == Some(b)
      && b in s'.handed && t !in s'.q.completed && Staging.Held(s'.pool, b)
  {
    InitInv(pool, others, depth, total);
    RunInv(Init(pool, others, depth, total), actions);
    var s := Run(Init(pool, others, depth, total), actions);
    TakesMatch(s, id);
    assert Owns(s, ByStage(s.readers[id].timestep), s.q.completed[s.readers[id].timestep]);
  }

  /******* A stale window *******/

  /** The look releases the stale buffer, and nothing tracks the timestep any more. */
  ghost predicate Dropped(s: System, s': System, id: nat)
    requires id in s.readers && s.readers[id].timestep in s.q.completed
  {
    var r := s.readers[id];
    && id in s'.readers && s'.readers[id] == r.(place := if r.place.Looping? then Rescheduling else Scheduling)
    && Open(s') && s'.q.latched == s.q.latched && s'.q.cancelled == s.q.cancelled
    && s'.fetches == s.fetches && s'.nextFetch == s.nextFetch
    && s'.q.pending == s.q.pending && s'.q.failed == s.q.failed && r.timestep !in s'.q.completed
    && s'.pool == ReleaseIfHeld(s.pool, s.q.completed[r.timestep])
  }

  lemma StaleIsDropped(s: System, id: nat)
    requires TrackingSound(s) && SeesStale(s, id)
    ensures Dropped(s, Step(s, Moves(id)), id)
  {
    assert s.readers[id].timestep !in s.q.failed;
  }

  /** The next critical section of that reader fetches the timestep with the latched
      selection. */
  lemma DroppedIsFetched(s: System, id: nat)
    requires Open(s) && !s.q.cancelled && id in s.readers && !Tracked(s.q, s.readers[id].timestep)
    requires s.readers[id].place.Scheduling? || s.readers[id].place.Rescheduling?
    ensures var t := s.readers[id].timestep; var s' := Step(s, Moves(id));
      && s'.fetches == s.fetches[s.nextFetch := Fetch(t, s.q.latched, Dispatched)]
      && t in s'.q.pending && t !in s'.q.completed && s'.pool == s.pool
      && (s'.readers[id].place.Looping? || s'.readers[id].place.Tailing?)
  {
  }

  /** In every run of an uncancelled queue, a look that finds its timestep staged with
      another region - at the start of the call or during its wait - releases that buffer;
      after the caller's next section the timestep is pending with a fetch of the latched
      selection, and the stale buffer is unreferenced. */
  lemma StaleWindowIsReplaced(pool: Staging.Pool, others: set<nat>, depth: nat, total: int, actions: seq<Action>, id: nat)
    requires FreshPool(pool, others)
    requires var s := Run(Init(pool, others, depth, total), actions); SeesStale(s, id) && !s.q.cancelled
    ensures var s := Run(Init(pool, others, depth, total), actions);
      var t := s.readers[id].timestep; var b := s.q.completed[t];
      var s1 := Step(s, Moves(id)); var s2 := Step(s1, Moves(id));
      && !Staging.Referenced(s1.pool, b) && !Tracked(s1.q, t)
      && !Staging.Referenced(s2.pool, b) && t in s2.q.pending && t !in s2.q.completed
      && s2.fetches == s.fetches[s.nextFetch := Fetch(t, s.q.latched, Dispatched)]
  {
    InitInv(pool, others, depth, total);
    RunInv(Init(pool, others, depth, total), actions);
    ReplacedHere(Run(Init(pool, others, depth, total), actions), id);
  }

  lemma ReplacedHere(s: System, id: nat)
    requires TrackingSound(s) && Conserved(s) && SeesStale(s, id) && !s.q.cancelled
    ensures var t := s.readers[id].timestep; var b := s.q.completed[t];
      var s1 := Step(s, Moves(id)); var s2 := Step(s1, Moves(id));
      && !Staging.Referenced(s1.pool, b) && !Tracked(s1.q, t)
      && !Staging.Referenced(s2.pool, b) && t in s2.q.pending && t !in s2.q.completed
      && s2.fetches == s.fetches[s.nextFetch := Fetch(t, s.q.latched, Dispatched)]
  {
    var t := s.readers[id].timestep;
    var s1 := Step(s, Moves(id));
    StaleIsDropped(s, id);
    StagedIsReleased(s, t);
    assert t in s.q.pending ==> Fetching(s, t);
    DroppedIsFetched(s1, id);
  }

  lemma StagedIsReleased(s: System, t: int)
    requires Conserved(s) && t in s.q.completed
    ensures !Staging.Referenced(ReleaseIfHeld(s.pool, s.q.completed[t]), s.q.completed[t])
  {
    assert Owns(s, ByStage(t), s.q.completed[t]);
    Staging.ReleaseFrame(s.pool, s.q.completed[t]);
  }

  /** Whatever happens between the two sections: after the second one the timestep is
      tracked, unless the queue is cancelled. */
  lemma SchedulingTracks(s: System, id: nat)
    requires Open(s) && id in s.readers && (s.readers[id].place.Scheduling? || s.readers[id].place.Rescheduling?)
    ensures var s' := Step(s, Moves(id)); s'.q.cancelled || Tracked(s'.q, s.readers[id].timestep)
  {
  }

  /******* After the last look *******/

  /** In this run no fetch of `t` lands. */
  ghost predicate NoLanding(s: System, actions: seq<Action>, t: int)
    decreases |actions|
  {
    actions != [] ==>
      && !(actions[0].FetchLands? && Enabled(s, actions[0]) && s.fetches[actions[0].fetch].timestep == t)
      && NoLanding(Step(s, actions[0]), actions[1..], t)
  }

  lemma ReadersStageNothing(s: System, id: nat, t: int)
    requires id in s.readers && t !in s.q.completed
    ensures t !in Move(s, id).q.completed && t !in Expire(s, id).q.completed
  {
    SectionNarrows(s, s.readers[id]);
  }

  lemma OthersStageNothing(s: System, a: Action, t: int)
    requires Enabled(s, a) && t !in s.q.completed && !a.Moves? && !a.Expires? && !a.FetchLands?
    ensures t !in Apply(s, a).q.completed
  {
    match a
    case Schedules(_) =>
    case FetchStarts(_) =>
    case CancelReleases =>
    case _ =>
  }

  /** Only a landing stages a timestep. */
  lemma StagedByLanding(s: System, a: Action, t: int)
    requires t !in s.q.completed && t in Step(s, a).q.completed
    ensures a.FetchLands? && Enabled(s, a) && s.fetches[a.fetch].timestep == t
  {
    match a
    case Moves(id) => if id in s.readers { ReadersStageNothing(s, id, t); }
    case Expires(id) => if id in s.readers { ReadersStageNothing(s, id, t); }
    case FetchLands(_) =>
    case _ => if Enabled(s, a) { OthersStageNothing(s, a, t); }
  }

  lemma {:induction false} StaysUnstaged(s: System, actions: seq<Action>, t: int)
    requires t !in s.q.completed && NoLanding(s, actions, t)
    ensures t !in Run(s, actions).q.completed
    decreases |actions|
  {
    if actions != [] {
      if t in Step(s, actions[0]).q.completed { StagedByLanding(s, actions[0], t); }
      StaysUnstaged(Step(s, actions[0]), actions[1..], t);
    }
  }

  /** After any look the timestep is not staged. */
  lemma LookUnstages(s: System, id: nat)
    requires Looks(s, id) && TrackingSound(s)
    ensures s.readers[id].timestep !in Step(s, Moves(id)).q.completed
  {
    assert s.readers[id].timestep in s.q.completed ==> s.readers[id].timestep !in s.q.failed;
  }

  /** A call that expires with AMIO_OK - the only way to get a buffer of another region -
      got one that landed after its last look: without such a landing the answer is a
      failure. */
  lemma OkOnExpiryNeedsLanding(pool: Staging.Pool, others: set<nat>, depth: nat, total: int,
                               before: seq<Action>, after: seq<Action>, id: nat)
    requires FreshPool(pool, others) && Looks(Run(Init(pool, others, depth, total), before), id)
    requires var s := Run(Init(pool, others, depth, total), before); var look := Step(s, Moves(id)); var e := Run(look, after);
      && NoLanding(look, after, s.readers[id].timestep)
      && Enabled(e, Expires(id)) && e.readers[id].timestep == s.readers[id].timestep
    ensures var e := Run(Step(Run(Init(pool, others, depth, total), before), Moves(id)), after);
      var place := Step(e, Expires(id)).readers[id].place;
      && place.Done? && place.status != Ok && place.buf == None
      && (e.readers[id].timestep !in e.q.failed ==> place.status == Timeout)
  {
    InitInv(pool, others, depth, total);
    RunInv(Init(pool, others, depth, total), before);
    var s := Run(Init(pool, others, depth, total), before);
    LookUnstages(s, id);
    StepInv(s, Moves(id));
    StaysUnstaged(Step(s, Moves(id)), after, s.readers[id].timestep);
    RunInv(Step(s, Moves(id)), after);
    ExpiresUnstaged(Run(Step(s, Moves(id)), after), id);
  }

  lemma ExpiresUnstaged(s: System, id: nat)
    requires ErrorsSound(s) && Enabled(s, Expires(id)) && s.readers[id].timestep !in s.q.completed
    ensures var place := Step(s, Expires(id)).readers[id].place;
      && place.Done? && place.status != Ok && place.buf == None
      && (s.readers[id].timestep !in s.q.failed ==> place.status == Timeout)
  {
  }

  /** A look that finds nothing waits, and changes nothing; a wakeup leads to another look. */
  lemma NothingThereWaits(s: System, id: nat)
    requires Open(s) && id in s.readers && s.readers[id].place.Looping? && !s.q.cancelled
    requires s.readers[id].timestep !in s.q.completed && s.readers[id].timestep !in s.q.failed
    ensures Step(s, Moves(id)) == s.(readers := s.readers[id := s.readers[id].(place := Waiting)])
    ensures Step(Step(s, Moves(id)), Moves(id)) == s
  {
    var w := s.(readers := s.readers[id := s.readers[id].(place := Waiting)]);
    assert Step(s, Moves(id)) == w;
    assert w.readers[id := s.readers[id]] == s.readers;
  }

  /******* Cancellation *******/

  /** On a cancelled queue a waiting call fails at its next look. */
  lemma CancelledCallFails(s: System, id: nat)
    requires Open(s) && s.q.cancelled && id in s.readers && s.readers[id].place.Looping?
    requires s.readers[id].timestep !in s.q.completed && s.readers[id].timestep !in s.q.failed
    ensures Step(s, Moves(id)).readers[id].place == Failing(BackendFailure)
  {
  }

  /** Fetch `f` was created but had not begun when the queue was cancelled. */
  ghost predicate NeverBegins(s: System, f: nat) {
    s.q.cancelled && f < s.nextFetch && (f in s.fetches ==> s.fetches[f].progress == Dispatched)
  }

  lemma StepNeverBegins(s: System, a: Action, f: nat)
    requires NeverBegins(s, f)
    ensures NeverBegins(Step(s, a), f) && Step(s, a).nextFetch == s.nextFetch
    ensures !(a.FetchReads? && a.fetch == f && Enabled(s, a))
  {
    if Enabled(s, a) && a.Moves? {
      CancelledSection(s, s.readers[a.reader]);
    }
  }

  lemma CancelledSection(s: System, r: Reader)
    requires s.q.cancelled
    ensures var m := Section(s, r).0; m.q.cancelled && m.fetches == s.fetches && m.nextFetch == s.nextFetch
  {
    if !SchedulesAt(r) { RemovalSection(s, r); }
  }

  /** In every run after a cancellation no new fetch is created, and a fetch that had not
      begun never holds a buffer. */
  lemma {:induction false} CancelledFetchNeverBegins(s: System, actions: seq<Action>, f: nat)
    requires NeverBegins(s, f)
    ensures NeverBegins(Run(s, actions), f) && Run(s, actions).nextFetch == s.nextFetch
    decreases |actions|
  {
    if actions != [] {
      StepNeverBegins(s, actions[0], f);
      CancelledFetchNeverBegins(Step(s, actions[0]), actions[1..], f);
    }
  }
}
