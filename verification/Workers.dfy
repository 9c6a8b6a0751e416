/**
 The worker pool: threads that pop a shared FIFO of write tasks, put a task back on
 the tail when it is not the next one of its (dataset, variable) key, and advance the
 key's execution counter once the callback has returned.

 The pool is a transition system.  An action is one critical section, or one atomic
 update outside the lock, of some thread; a run is any sequence of actions, so it
 covers every interleaving of any number of threads.
 */
module Workers {
  import opened Common
  import opened Sequences
  import opened Counting

  datatype Key = Key(dataset: nat, variable: nat)

  /** A queued write is identified by its key and its sequence number under that key. */
  datatype Task = Task(key: Key, num: nat)

  /** Per-key ordering state: the next number to give out and the next one to execute. */
  datatype Order = Order(next: nat, exec: nat)

  /** Where a worker thread stands in its loop. */
  datatype Phase =
    | Idle
    | Executing(task: Task)    // inside the write callback
    | Advanced(task: Task)     // exec_seq advanced, completion not yet counted
    | Counted                  // writes_completed_ updated, in_flight_ not yet
    | Fetching                 // inside a prefetch callback
    | Exited

  datatype Event = Started(task: Task) | Finished(task: Task)

  /** The last two fields are history: the callbacks begun and ended so far, and the
      ordering state when the shutdown flag was set. */
  datatype State = State(
    queue: seq<Task>,
    orders: map<Key, Order>,
    prefetches: nat,
    threads: seq<Phase>,
    inFlight: int,
    completed: nat,
    shutdown: bool,
    log: seq<Event>,
    atFlag: map<Key, Order>)

  function Init(threadCount: nat): State {
    State([], map[], 0, seq(threadCount, _ => Idle), 0, 0, false, [], map[])
  }

  function OrderOf(orders: map<Key, Order>, k: Key): Order {
    if k in orders then orders[k] else Order(0, 0)
  }

  function Next(s: State, k: Key): nat { OrderOf(s.orders, k).next }

  function Exec(s: State, k: Key): nat { OrderOf(s.orders, k).exec }

  /******* Actions *******/

  datatype Action =
    | Submit(key: Key)
    | SubmitPrefetch
    | TryExecute(worker: nat, seen: nat)  // a locked pass that reads `seen` as exec_seq
    | Finish(worker: nat)                 // the write callback returns and exec_seq advances
    | Tally(worker: nat)                  // writes_completed_ is incremented
    | Leave(worker: nat)                  // in_flight_ is decremented
    | SetShutdown
    | Exit(worker: nat)

  predicate At(s: State, w: nat, p: Phase) {
    w < |s.threads| && s.threads[w] == p
  }

  predicate Enabled(s: State, a: Action) {
    match a
    case Submit(_) => true
    case SubmitPrefetch => true
    case TryExecute(w, seen) => At(s, w, Idle) && (s.queue != [] ==> seen <= Exec(s, s.queue[0].key))
    case Finish(w) => w < |s.threads| && s.threads[w].Executing?
    case Tally(w) => w < |s.threads| && s.threads[w].Advanced?
    case Leave(w) => At(s, w, Counted) || At(s, w, Fetching)
    case SetShutdown => true
    case Exit(w) => At(s, w, Idle) && s.shutdown && s.queue == [] && s.prefetches == 0
  }

  /** `submit_write` under the lock.  The shutdown flag is read before the lock is taken,
      so this may also happen after the flag is set. */
  function DoSubmit(s: State, k: Key): State {
    var o := OrderOf(s.orders, k);
    s.(queue := s.queue + [Task(k, o.next)], orders := s.orders[k := o.(next := o.next + 1)])
  }

  function DoStart(s: State, w: nat): State
    requires w < |s.threads| && s.queue != []
  {
    var t := s.queue[0];
    s.(queue := s.queue[1..], threads := s.threads[w := Executing(t)], inFlight := s.inFlight + 1,
       log := s.log + [Started(t)])
  }

  function DoRotate(s: State): State
    requires s.queue != []
  {
    s.(queue := s.queue[1..] + [s.queue[0]])
  }

  function DoFetch(s: State, w: nat): State
    requires w < |s.threads|
  {
    if s.prefetches == 0 then s
    else s.(prefetches := s.prefetches - 1, threads := s.threads[w := Fetching], inFlight := s.inFlight + 1)
  }

  /** One pass of `try_execute_one`: start the task at the front if it is ready, else put
      it back on the tail and try a prefetch task instead. */
  function DoTryExecute(s: State, w: nat, seen: nat): State
    requires w < |s.threads|
  {
    if s.queue == [] then DoFetch(s, w)
    else if s.queue[0].num == seen then DoStart(s, w)
    else DoFetch(DoRotate(s), w)
  }

  function DoFinish(s: State, w: nat): State
    requires w < |s.threads| && s.threads[w].Executing?
  {
    var t := s.threads[w].task;
    var o := OrderOf(s.orders, t.key);
    s.(orders := s.orders[t.key := o.(exec := o.exec + 1)], threads := s.threads[w := Advanced(t)],
       log := s.log + [Finished(t)])
  }

  function Apply(s: State, a: Action): State
    requires Enabled(s, a)
  {
    match a
    case Submit(k) => DoSubmit(s, k)
    case SubmitPrefetch => s.(prefetches := s.prefetches + 1)
    case TryExecute(w, seen) => DoTryExecute(s, w, seen)
    case Finish(w) => DoFinish(s, w)
    case Tally(w) => s.(completed := s.completed + 1, threads := s.threads[w := Counted])
    case Leave(w) => s.(inFlight := s.inFlight - 1, threads := s.threads[w := Idle])
    case SetShutdown => if s.shutdown then s else s.(shutdown := true, atFlag := s.orders)
    case Exit(w) => s.(threads := s.threads[w := Exited])
  }

  /** An action that is not enabled does not happen. */
  function Step(s: State, a: Action): State {
    if Enabled(s, a) then Apply(s, a) else s
  }

  function Run(s: State, actions: seq<Action>): State
    decreases |actions|
  {
    if actions == [] then s else Run(Step(s, actions[0]), actions[1..])
  }

  /******* Invariant: queue and running tasks *******/

  ghost predicate Running(s: State, t: Task) {
    exists w :: 0 <= w < |s.threads| && s.threads[w] == Executing(t)
  }

  predicate Pending(s: State, t: Task) {
    Exec(s, t.key) <= t.num < Next(s, t.key)
  }

  ghost predicate QueueSound(s: State) {
    && Distinct(s.queue)
    && (forall i :: 0 <= i < |s.queue| ==> Pending(s, s.queue[i]))
  }

  /** A running task is the next one of its key, it has left the queue, and no other
      thread runs a task of that key. */
  ghost predicate RunningSound(s: State) {
    && (forall w :: 0 <= w < |s.threads| && s.threads[w].Executing? ==>
          var t := s.threads[w].task;
          Pending(s, t) && t.num == Exec(s, t.key) && t !in s.queue)
    && (forall v, w :: 0 <= v < w < |s.threads| && s.threads[v].Executing? && s.threads[w].Executing? ==>
          s.threads[v].task.key != s.threads[w].task.key)
  }

  /** Nothing is lost: every number given out and not yet executed is queued or running. */
  ghost predicate Covered(s: State) {
    forall t: Task :: Pending(s, t) ==> t in s.queue || Running(s, t)
  }

  ghost predicate Ordered(s: State) {
    forall k :: k in s.orders ==> s.orders[k].exec <= s.orders[k].next
  }

  ghost predicate TasksSound(s: State) {
    QueueSound(s) && RunningSound(s) && Covered(s) && Ordered(s)
  }

  lemma SubmitKeepsTasks(s: State, k: Key)
    requires TasksSound(s)
    ensures TasksSound(DoSubmit(s, k))
  {
    var s' := DoSubmit(s, k);
    var t := Task(k, Next(s, k));
    assert forall u :: Pending(s', u) <==> Pending(s, u) || u == t;
    assert s'.queue[|s.queue|] == t;
    forall u | Pending(s', u) ensures u in s'.queue || Running(s', u) {
      if u != t && Running(s, u) {
        var w :| 0 <= w < |s.threads| && s.threads[w] == Executing(u);
        assert s'.threads[w] == Executing(u);
      }
    }
  }

  lemma StartKeepsTasks(s: State, w: nat)
    requires TasksSound(s) && At(s, w, Idle) && s.queue != []
    requires s.queue[0].num == Exec(s, s.queue[0].key)
    ensures TasksSound(DoStart(s, w))
  {
    var s' := DoStart(s, w);
    var t := s.queue[0];
    assert s.queue == [t] + s.queue[1..];
    assert Pending(s, t);
    assert t in s.queue;
    forall v | 0 <= v < |s.threads| && s.threads[v].Executing? ensures s.threads[v].task.key != t.key {
      assert s.threads[v].task !in s.queue;
    }
    forall u | Pending(s', u) ensures u in s'.queue || Running(s', u) {
      assert Pending(s, u);
      if u == t {
        assert s'.threads[w] == Executing(u);
      } else if Running(s, u) {
        var v :| 0 <= v < |s.threads| && s.threads[v] == Executing(u);
        assert s'.threads[v] == Executing(u);
      }
    }
  }

  lemma RotateKeepsTasks(s: State)
    requires TasksSound(s) && s.queue != []
    ensures TasksSound(DoRotate(s))
  {
    var s' := DoRotate(s);
    var n := |s.queue| - 1;
    assert s'.queue[n] == s.queue[0];
    assert forall i :: 0 <= i < n ==> s'.queue[i] == s.queue[i + 1];
    forall u ensures u in s'.queue <==> u in s.queue {
      if u in s.queue {
        var i :| 0 <= i < |s.queue| && s.queue[i] == u;
        assert s'.queue[if i == 0 then n else i - 1] == u;
      }
    }
    forall u | Pending(s', u) ensures u in s'.queue || Running(s', u) {
      assert Pending(s, u);
    }
  }

  /** A thread that is not executing may move between the other phases freely. */
  lemma QuietMoveKeepsTasks(s: State, s': State, w: nat, p: Phase)
    requires TasksSound(s) && w < |s.threads| && !s.threads[w].Executing? && !p.Executing?
    requires s'.threads == s.threads[w := p] && s'.queue == s.queue && s'.orders == s.orders
    ensures TasksSound(s')
  {
    forall u | Pending(s', u) ensures u in s'.queue || Running(s', u) {
      assert Pending(s, u);
      if Running(s, u) {
        var v :| 0 <= v < |s.threads| && s.threads[v] == Executing(u);
        assert s'.threads[v] == Executing(u);
      }
    }
  }

  lemma FinishKeepsTasks(s: State, w: nat)
    requires TasksSound(s) && w < |s.threads| && s.threads[w].Executing?
    ensures TasksSound(DoFinish(s, w))
  {
    var s' := DoFinish(s, w);
    var t := s.threads[w].task;
    assert Pending(s, t);
    assert forall u: Task :: Pending(s', u) <==> Pending(s, u) && u != t;
    forall i | 0 <= i < |s'.queue| ensures Pending(s', s'.queue[i]) {
      assert Pending(s, s.queue[i]);
    }
    forall v | 0 <= v < |s'.threads| && s'.threads[v].Executing?
      ensures s'.threads[v].task.key != t.key
    {
      assert s'.threads[v] == s.threads[v];
    }
    forall u | Pending(s', u) ensures u in s'.queue || Running(s', u) {
      if Running(s, u) {
        var v :| 0 <= v < |s.threads| && s.threads[v] == Executing(u);
        assert s'.threads[v] == Executing(u);
      }
    }
  }

  /** A worker that read an outdated exec_seq merely rotates: every queued number is at
      least the current one, so only an up-to-date read can match. */
  lemma StaleReadOnlyRotates(s: State, w: nat, seen: nat)
    requires TasksSound(s) && At(s, w, Idle) && s.queue != [] && seen < Exec(s, s.queue[0].key)
    ensures DoTryExecute(s, w, seen) == DoFetch(DoRotate(s), w)
  {
    assert Pending(s, s.queue[0]);
  }

  lemma TryExecuteKeepsTasks(s: State, w: nat, seen: nat)
    requires TasksSound(s) && Enabled(s, TryExecute(w, seen))
    ensures TasksSound(DoTryExecute(s, w, seen))
  {
    if s.queue == [] {
      if s.prefetches > 0 { QuietMoveKeepsTasks(s, DoFetch(s, w), w, Fetching); }
    } else if s.queue[0].num == seen {
      assert Pending(s, s.queue[0]);
      StartKeepsTasks(s, w);
    } else {
      RotateKeepsTasks(s);
      var m := DoRotate(s);
      if m.prefetches > 0 { QuietMoveKeepsTasks(m, DoFetch(m, w), w, Fetching); }
    }
  }

  lemma StepKeepsTasks(s: State, a: Action)
    requires TasksSound(s)
    ensures TasksSound(Step(s, a))
  {
    if Enabled(s, a) {
      match a
      case Submit(k) => SubmitKeepsTasks(s, k);
      case SubmitPrefetch => SameTasks(s, Step(s, a));
      case TryExecute(w, seen) => TryExecuteKeepsTasks(s, w, seen);
      case Finish(w) => FinishKeepsTasks(s, w);
      case Tally(w) => QuietMoveKeepsTasks(s, Step(s, a), w, Counted);
      case Leave(w) => QuietMoveKeepsTasks(s, Step(s, a), w, Idle);
      case SetShutdown => SameTasks(s, Step(s, a));
      case Exit(w) => QuietMoveKeepsTasks(s, Step(s, a), w, Exited);
    }
  }

  lemma SameTasks(s: State, s': State)
    requires TasksSound(s)
    requires s'.threads == s.threads && s'.queue == s.queue && s'.orders == s.orders
    ensures TasksSound(s')
  {
    forall u | Pending(s', u) ensures u in s'.queue || Running(s', u) {
      assert Pending(s, u);
    }
  }

  /******* Invariant: the callback history of each key *******/

  function KeyOf(e: Event): Key { e.task.key }

  /** The callbacks of key `k`, in the order they began and ended. */
  function Trace(log: seq<Event>, k: Key): seq<Event> {
    if log == [] then []
    else
      var e := log[|log| - 1];
      Trace(log[..|log| - 1], k) + if KeyOf(e) == k then [e] else []
  }

  /** Callbacks 0 .. n - 1 of key `k`, one after the other. */
  function Serial(k: Key, n: nat): (r: seq<Event>)
    ensures |r| == 2 * n
    ensures forall i :: 0 <= i < n ==> r[2 * i] == Started(Task(k, i)) && r[2 * i + 1] == Finished(Task(k, i))
  {
    if n == 0 then []
    else Serial(k, n - 1) + [Started(Task(k, n - 1)), Finished(Task(k, n - 1))]
  }

  /** The history of key `k` is a serial execution in sequence order, the last callback
      possibly still running. */
  ghost predicate TraceSound(s: State, k: Key) {
    Trace(s.log, k) ==
      Serial(k, Exec(s, k)) + if Running(s, Task(k, Exec(s, k))) then [Started(Task(k, Exec(s, k)))] else []
  }

  ghost predicate HistorySound(s: State) {
    forall k :: TraceSound(s, k)
  }

  lemma TraceAppend(log: seq<Event>, e: Event, k: Key)
    ensures Trace(log + [e], k) == Trace(log, k) + if KeyOf(e) == k then [e] else []
  {
    assert (log + [e])[..|log|] == log;
  }

  /** Moves that touch neither the log, nor the counters, nor a running task. */
  lemma SameHistory(s: State, s': State)
    requires HistorySound(s) && s'.log == s.log
    requires forall k :: Exec(s', k) == Exec(s, k)
    requires forall t :: Running(s', t) <==> Running(s, t)
    ensures HistorySound(s')
  {
    forall k ensures TraceSound(s', k) {
      assert TraceSound(s, k);
    }
  }

  lemma QuietMoveKeepsRunning(s: State, s': State, w: nat, p: Phase)
    requires w < |s.threads| && !s.threads[w].Executing? && !p.Executing?
    requires s'.threads == s.threads[w := p]
    ensures forall t :: Running(s', t) <==> Running(s, t)
  {
    forall t ensures Running(s', t) <==> Running(s, t) {
      if Running(s, t) {
        var v :| 0 <= v < |s.threads| && s.threads[v] == Executing(t);
        assert s'.threads[v] == Executing(t);
      }
    }
  }

  lemma StartKeepsHistory(s: State, w: nat)
    requires TasksSound(s) && HistorySound(s) && At(s, w, Idle) && s.queue != []
    requires s.queue[0].num == Exec(s, s.queue[0].key)
    ensures HistorySound(DoStart(s, w))
  {
    var s' := DoStart(s, w);
    var t := s.queue[0];
    assert t in s.queue;
    assert s'.threads[w] == Executing(t);
    forall k ensures TraceSound(s', k) {
      assert TraceSound(s, k);
      TraceAppend(s.log, Started(t), k);
      var u := Task(k, Exec(s, k));
      if Running(s, u) {
        var v :| 0 <= v < |s.threads| && s.threads[v] == Executing(u);
        assert s'.threads[v] == Executing(u);
        assert u !in s.queue;
      }
      assert Running(s', u) <==> Running(s, u) || u == t;
    }
  }

  lemma FinishKeepsHistory(s: State, w: nat)
    requires TasksSound(s) && HistorySound(s) && w < |s.threads| && s.threads[w].Executing?
    ensures HistorySound(DoFinish(s, w))
  {
    var s' := DoFinish(s, w);
    var t := s.threads[w].task;
    assert Running(s, t);
    forall k ensures TraceSound(s', k) {
      assert TraceSound(s, k);
      TraceAppend(s.log, Finished(t), k);
      if k == t.key {
        assert Exec(s', k) == t.num + 1;
        assert !Running(s', Task(k, t.num + 1)) by {
          forall v | 0 <= v < |s'.threads| ensures s'.threads[v] != Executing(Task(k, t.num + 1)) {
            if s'.threads[v].Executing? { assert s'.threads[v] == s.threads[v]; }
          }
        }
        assert Trace(s'.log, k) == Serial(k, t.num) + [Started(t)] + [Finished(t)];
      } else {
        var u := Task(k, Exec(s, k));
        if Running(s, u) {
          var v :| 0 <= v < |s.threads| && s.threads[v] == Executing(u);
          assert s'.threads[v] == Executing(u);
        }
        assert Running(s', u) <==> Running(s, u);
      }
    }
  }

  lemma TryExecuteKeepsHistory(s: State, w: nat, seen: nat)
    requires TasksSound(s) && HistorySound(s) && Enabled(s, TryExecute(w, seen))
    ensures HistorySound(DoTryExecute(s, w, seen))
  {
    var s' := DoTryExecute(s, w, seen);
    if s.queue != [] && s.queue[0].num == seen {
      assert Pending(s, s.queue[0]);
      StartKeepsHistory(s, w);
    } else {
      if s.prefetches > 0 { QuietMoveKeepsRunning(s, s', w, Fetching); }
      SameHistory(s, s');
    }
  }

  lemma StepKeepsHistory(s: State, a: Action)
    requires TasksSound(s) && HistorySound(s)
    ensures HistorySound(Step(s, a))
  {
    if Enabled(s, a) {
      var s' := Step(s, a);
      match a
      case Submit(k) => SameHistory(s, s');
      case SubmitPrefetch => SameHistory(s, s');
      case TryExecute(w, seen) => TryExecuteKeepsHistory(s, w, seen);
      case Finish(w) => FinishKeepsHistory(s, w);
      case Tally(w) => QuietMoveKeepsRunning(s, s', w, Counted); SameHistory(s, s');
      case Leave(w) => QuietMoveKeepsRunning(s, s', w, Idle); SameHistory(s, s');
      case SetShutdown => SameHistory(s, s');
      case Exit(w) => QuietMoveKeepsRunning(s, s', w, Exited); SameHistory(s, s');
    }
  }

  /******* Invariant: counters *******/

  function IsBusy(p: Phase): bool { !p.Idle? && !p.Exited? }

  function IsAdvanced(p: Phase): bool { p.Advanced? }

  ghost predicate CountersSound(s: State) {
    && s.inFlight == Count(s.threads, IsBusy)
    && s.completed + Count(s.threads, IsAdvanced) == MapSum(s.orders, (o: Order) => o.exec)
  }

  lemma StepKeepsCounters(s: State, a: Action)
    requires CountersSound(s)
    ensures CountersSound(Step(s, a))
  {
    if Enabled(s, a) {
      var s' := Apply(s, a);
      if a.Submit? {
        OrderKeepsCounters(s, s', a.key, 0);
      } else if a.Finish? {
        FinishKeepsCounters(s, a.worker);
      } else if a.TryExecute? {
        PassKeepsCounters(s, a.worker, a.seen);
      } else if a.Tally? || a.Leave? || a.Exit? {
        ThreadKeepsCounters(s, s', a.worker);
      }
    }
  }

  lemma PassKeepsCounters(s: State, w: nat, seen: nat)
    requires CountersSound(s) && At(s, w, Idle)
    ensures CountersSound(DoTryExecute(s, w, seen))
  {
    ThreadKeepsCounters(s, DoTryExecute(s, w, seen), w);
  }

  /** One thread moves on; the counters follow. */
  lemma ThreadKeepsCounters(s: State, s': State, w: nat)
    requires CountersSound(s) && s'.orders == s.orders && w < |s.threads| == |s'.threads|
    requires s'.threads == s.threads[w := s'.threads[w]]
    requires s'.inFlight == s.inFlight + (if IsBusy(s'.threads[w]) then 1 else 0) - (if IsBusy(s.threads[w]) then 1 else 0)
    requires s'.completed == s.completed + (if IsAdvanced(s.threads[w]) then 1 else 0) - (if IsAdvanced(s'.threads[w]) then 1 else 0)
    ensures CountersSound(s')
  {
    CountUpdate(s.threads, w, s'.threads[w], IsBusy);
    CountUpdate(s.threads, w, s'.threads[w], IsAdvanced);
  }

  /** The exec number of one key grows by `n`. */
  lemma OrderKeepsCounters(s: State, s': State, k: Key, n: nat)
    requires CountersSound(s) && k in s'.orders && s'.orders == s.orders[k := s'.orders[k]]
    requires s'.orders[k].exec == OrderOf(s.orders, k).exec + n
    requires s'.threads == s.threads && s'.inFlight == s.inFlight && s'.completed == s.completed + n
    ensures CountersSound(s')
  {
    MapSumUpdate(s.orders, (o: Order) => o.exec, k, s'.orders[k]);
  }

  /** exec_seq advances now, writes_completed_ only with the tally. */
  lemma FinishKeepsCounters(s: State, w: nat)
    requires CountersSound(s) && Enabled(s, Finish(w))
    ensures CountersSound(DoFinish(s, w))
  {
    var k := s.threads[w].task.key;
    var s' := DoFinish(s, w);
    var m := s.(orders := s'.orders, completed := s.completed + 1);
    OrderKeepsCounters(s, m, k, 1);
    ThreadKeepsCounters(m, s', w);
  }

  /******* Invariant: shutdown *******/

  ghost predicate SomeExited(s: State) {
    exists w :: 0 <= w < |s.threads| && s.threads[w] == Exited
  }

  /** A thread exits only with the flag set and the queue empty, so from then on the
      queue holds only tasks submitted after the flag. */
  ghost predicate ShutdownSound(s: State) {
    && (SomeExited(s) ==> s.shutdown)
    && (s.shutdown ==> forall k :: OrderOf(s.atFlag, k).next <= Next(s, k))
    && (SomeExited(s) ==> forall i :: 0 <= i < |s.queue| ==> OrderOf(s.atFlag, s.queue[i].key).next <= s.queue[i].num)
  }

  /** An action other than setting the flag or exiting only adds tasks numbered from
      `next` on and permutes or shortens the rest of the queue. */
  lemma QuietStepKeepsShutdown(s: State, s': State)
    requires ShutdownSound(s) && s'.shutdown == s.shutdown && s'.atFlag == s.atFlag
    requires SomeExited(s') ==> SomeExited(s)
    requires forall k :: Next(s, k) <= Next(s', k)
    requires forall i :: 0 <= i < |s'.queue| ==> s'.queue[i] in s.queue || s'.queue[i].num >= Next(s, s'.queue[i].key)
    ensures ShutdownSound(s')
  {
    forall k | s'.shutdown ensures OrderOf(s'.atFlag, k).next <= Next(s', k) {
      assert Next(s, k) <= Next(s', k);
      assert OrderOf(s.atFlag, k).next <= Next(s, k);
    }
    forall i | SomeExited(s') && 0 <= i < |s'.queue|
      ensures OrderOf(s'.atFlag, s'.queue[i].key).next <= s'.queue[i].num
    {
      assert OrderOf(s.atFlag, s'.queue[i].key).next <= Next(s, s'.queue[i].key);
    }
  }

  lemma ExitedStays(s: State, a: Action)
    requires Enabled(s, a) && !a.Exit?
    ensures SomeExited(Step(s, a)) ==> SomeExited(s)
  {
    var s' := Step(s, a);
    if SomeExited(s') {
      var w :| 0 <= w < |s'.threads| && s'.threads[w] == Exited;
      assert s.threads[w] == Exited;
    }
  }

  lemma StepKeepsShutdown(s: State, a: Action)
    requires ShutdownSound(s)
    ensures ShutdownSound(Step(s, a))
  {
    if Enabled(s, a) && !a.Exit? && !a.SetShutdown? {
      ExitedStays(s, a);
      StepOnlyAddsNewTasks(s, a);
      QuietStepKeepsShutdown(s, Step(s, a));
    } else if Enabled(s, a) && a.Exit? {
      ExitKeepsShutdown(s, a.worker);
    }
  }

  lemma ExitKeepsShutdown(s: State, w: nat)
    requires ShutdownSound(s) && Enabled(s, Exit(w))
    ensures ShutdownSound(Apply(s, Exit(w)))
  {
    var s' := Apply(s, Exit(w));
    forall k ensures OrderOf(s'.atFlag, k).next <= Next(s', k) {
      assert OrderOf(s.atFlag, k).next <= Next(s, k);
    }
  }

  lemma StepOnlyAddsNewTasks(s: State, a: Action)
    requires Enabled(s, a) && !a.SetShutdown?
    ensures var s' := Step(s, a);
      && s'.shutdown == s.shutdown && s'.atFlag == s.atFlag
      && (forall k :: Next(s, k) <= Next(s', k))
      && (forall i :: 0 <= i < |s'.queue| ==> s'.queue[i] in s.queue || s'.queue[i].num >= Next(s, s'.queue[i].key))
  {
    if a.Submit? {
      SubmitOnlyAddsNewTask(s, a.key);
    } else if a.TryExecute? {
      PassOnlyRotates(s, a.worker, a.seen);
    }
  }

  lemma SubmitOnlyAddsNewTask(s: State, k: Key)
    ensures var s' := DoSubmit(s, k);
      && (forall j :: Next(s, j) <= Next(s', j))
      && (forall i :: 0 <= i < |s'.queue| ==> s'.queue[i] in s.queue || s'.queue[i].num >= Next(s, s'.queue[i].key))
  {
    var s' := DoSubmit(s, k);
    forall i | 0 <= i < |s'.queue| ensures s'.queue[i] in s.queue || s'.queue[i].num >= Next(s, s'.queue[i].key) {
      if i < |s.queue| { assert s'.queue[i] == s.queue[i]; }
    }
  }

  lemma PassOnlyRotates(s: State, w: nat, seen: nat)
    requires w < |s.threads|
    ensures var s' := DoTryExecute(s, w, seen);
      && s'.orders == s.orders && s'.shutdown == s.shutdown && s'.atFlag == s.atFlag
      && (forall i :: 0 <= i < |s'.queue| ==> s'.queue[i] in s.queue)
  {
    var s' := DoTryExecute(s, w, seen);
    assert s'.queue == s.queue || s'.queue == s.queue[1..] || s'.queue == s.queue[1..] + [s.queue[0]];
  }

  /******* Every run *******/

  ghost predicate Inv(s: State) {
    TasksSound(s) && HistorySound(s) && CountersSound(s) && ShutdownSound(s)
  }

  lemma InitInv(n: nat)
    ensures Inv(Init(n))
  {
    var s := Init(n);
    CountZero(s.threads, IsBusy);
    CountZero(s.threads, IsAdvanced);
    assert forall t :: !Running(s, t);
    forall k ensures TraceSound(s, k) {}
  }

  lemma StepInv(s: State, a: Action)
    requires Inv(s)
    ensures Inv(Step(s, a))
  {
    StepKeepsTasks(s, a);
    StepKeepsHistory(s, a);
    StepKeepsCounters(s, a);
    StepKeepsShutdown(s, a);
  }

  lemma {:induction false} RunInv(s: State, actions: seq<Action>)
    requires Inv(s)
    ensures Inv(Run(s, actions))
    ensures |Run(s, actions).threads| == |s.threads|
    decreases |actions|
  {
    if actions != [] {
      StepInv(s, actions[0]);
      StepKeepsThreads(s, actions[0]);
      RunInv(Step(s, actions[0]), actions[1..]);
    }
  }

  lemma StepKeepsThreads(s: State, a: Action)
    ensures |Step(s, a).threads| == |s.threads|
  {
  }

  /** In every run, with any number of threads, the callbacks of one key run in sequence
      order 0, 1, 2, ..., never overlap and never run twice; and the numbers that are
      queued or running are exactly [exec, next), at most one of them running. */
  lemma PerKeyOrdering(n: nat, actions: seq<Action>, k: Key)
    ensures var s := Run(Init(n), actions); var e := Exec(s, k);
      && (Trace(s.log, k) == Serial(k, e) || Trace(s.log, k) == Serial(k, e) + [Started(Task(k, e))])
      && (forall num: nat :: e <= num < Next(s, k) <==> Task(k, num) in s.queue || Running(s, Task(k, num)))
      && (forall num: nat :: Running(s, Task(k, num)) ==> num == e && Task(k, num) !in s.queue)
  {
    InitInv(n);
    RunInv(Init(n), actions);
    var s := Run(Init(n), actions);
    assert TraceSound(s, k);
    forall num: nat
      ensures Exec(s, k) <= num < Next(s, k) <==> Task(k, num) in s.queue || Running(s, Task(k, num))
    {
      var t := Task(k, num);
      assert Pending(s, t) <==> Exec(s, k) <= num < Next(s, k);
      if t in s.queue {
        var i :| 0 <= i < |s.queue| && s.queue[i] == t;
        assert Pending(s, s.queue[i]);
      }
    }
  }

  /** When drain's predicate holds, every write submitted so far has been executed and
      the completion counter is the number of writes submitted. */
  lemma DrainedMeansDone(n: nat, actions: seq<Action>)
    requires var s := Run(Init(n), actions); s.queue == [] && s.prefetches == 0 && s.inFlight == 0
    ensures var s := Run(Init(n), actions);
      && (forall k :: Exec(s, k) == Next(s, k))
      && s.completed == MapSum(s.orders, (o: Order) => o.next)
  {
    InitInv(n);
    RunInv(Init(n), actions);
    var s := Run(Init(n), actions);
    CountZero(s.threads, IsBusy);
    CountZero(s.threads, IsAdvanced);
    forall k ensures Exec(s, k) == Next(s, k) {
      var t := Task(k, Exec(s, k));
      assert Pending(s, t) ==> Running(s, t);
    }
    forall k | k in s.orders ensures s.orders[k].exec == s.orders[k].next {
      assert Exec(s, k) == Next(s, k);
    }
    MapSumEqual(s.orders, (o: Order) => o.exec, (o: Order) => o.next);
  }

  predicate AllExited(s: State) {
    forall w :: 0 <= w < |s.threads| ==> s.threads[w] == Exited
  }

  lemma ExitedMeansDone(s: State, k: Key)
    requires Inv(s) && s.threads != [] && AllExited(s)
    ensures OrderOf(s.atFlag, k).next <= Exec(s, k)
  {
    assert s.threads[0] == Exited;
    assert SomeExited(s);
    var t := Task(k, Exec(s, k));
    assert !Running(s, t);
    assert t in s.queue ==> OrderOf(s.atFlag, k).next <= t.num;
    assert Pending(s, t) ==> t in s.queue;
  }

  lemma {:induction false} NoThreadsNoProgress(s: State, actions: seq<Action>, k: Key)
    requires s.threads == []
    ensures Exec(Run(s, actions), k) == Exec(s, k)
    decreases |actions|
  {
    if actions != [] {
      NoThreadsNoProgress(Step(s, actions[0]), actions[1..], k);
    }
  }

  /** Once every thread has been joined, every write on a key that was enqueued before the
      shutdown flag was set has run, if and only if the pool has a thread at all or there
      was no such write. */
  lemma JoinedMeansDoneIff(n: nat, actions: seq<Action>, k: Key)
    requires AllExited(Run(Init(n), actions))
    ensures var s := Run(Init(n), actions);
      OrderOf(s.atFlag, k).next <= Exec(s, k) <==> n > 0 || OrderOf(s.atFlag, k).next == 0
  {
    InitInv(n);
    RunInv(Init(n), actions);
    if n > 0 {
      ExitedMeansDone(Run(Init(n), actions), k);
    } else {
      NoThreadsNoProgress(Init(n), actions, k);
    }
  }

  /** A pool constructed with no threads - the constructor allows it - is joined at once
      and leaves its writes undone. */
  lemma ZeroThreadsNeverRun(k: Key)
    ensures var s := Run(Init(0), [Submit(k), SetShutdown]);
      s.threads == [] && OrderOf(s.atFlag, k).next == 1 && Exec(s, k) == 0
  {
    var s0 := Init(0);
    var s1 := Step(s0, Submit(k));
    var s2 := Step(s1, SetShutdown);
    assert Run(s2, []) == s2;
    assert Run(s1, [SetShutdown]) == s2 by { assert [SetShutdown][1..] == []; }
    assert [Submit(k), SetShutdown][1..] == [SetShutdown];
  }

  /******* Progress *******/

  /** `r` passes of an idle worker that reads exec_seq afresh each time. */
  function Spin(s: State, w: nat, r: nat): State {
    if r == 0 then s
    else
      var p := Spin(s, w, r - 1);
      Step(p, TryExecute(w, if p.queue == [] then 0 else Exec(p, p.queue[0].key)))
  }

  predicate Ready(s: State, i: nat)
    requires i < |s.queue|
  {
    s.queue[i].num == Exec(s, s.queue[i].key)
  }

  lemma {:induction false} SpinRotates(s: State, w: nat, r: nat)
    requires At(s, w, Idle) && s.prefetches == 0 && r < |s.queue|
    requires forall i :: 0 <= i < r ==> !Ready(s, i)
    ensures Spin(s, w, r) == s.(queue := s.queue[r..] + s.queue[..r])
  {
    if r > 0 {
      SpinRotates(s, w, r - 1);
      var p := Spin(s, w, r - 1);
      assert !Ready(s, r - 1);
      RotateOnce(s.queue, r);
      assert Spin(s, w, r) == DoRotate(p);
    } else {
      assert s.queue[0..] + s.queue[..0] == s.queue;
    }
  }

  lemma RotateOnce(q: seq<Task>, r: nat)
    requires 0 < r < |q|
    ensures var p := q[r - 1..] + q[..r - 1]; p[0] == q[r - 1] && p[1..] + [p[0]] == q[r..] + q[..r]
  {
  }

  /** Whenever writes are queued and none is running, some queued task is ready, and an
      idle worker starts one after at most |queue| - 1 rotations. */
  lemma Progress(s: State, w: nat) returns (r: nat)
    requires Inv(s) && At(s, w, Idle) && s.prefetches == 0 && s.queue != []
    requires forall v :: 0 <= v < |s.threads| ==> !s.threads[v].Executing?
    ensures r < |s.queue|
    ensures forall j :: 0 <= j <= r ==> Spin(s, w, j).threads == s.threads
    ensures Ready(s, r) && At(Spin(s, w, r + 1), w, Executing(s.queue[r]))
  {
    assert Pending(s, s.queue[0]);
    var t := Task(s.queue[0].key, Exec(s, s.queue[0].key));
    assert Pending(s, t) && !Running(s, t);
    var i: nat :| i < |s.queue| && s.queue[i] == t;
    assert Ready(s, i);
    r := FirstReady(s, 0);
    forall j | 0 <= j <= r ensures Spin(s, w, j).threads == s.threads {
      SpinRotates(s, w, j);
    }
    SpinRotates(s, w, r);
    assert Spin(s, w, r).queue[0] == s.queue[r];
  }

  function FirstReady(s: State, from: nat): (r: nat)
    requires from <= |s.queue|
    ensures from <= r <= |s.queue|
    ensures r < |s.queue| ==> Ready(s, r)
    ensures forall i :: from <= i < r ==> !Ready(s, i)
    decreases |s.queue| - from
  {
    if from == |s.queue| || Ready(s, from) then from else FirstReady(s, from + 1)
  }

  predicate Quiet(s: State) {
    forall v :: 0 <= v < |s.threads| ==> !s.threads[v].Executing?
  }

  /** A pass over a non-empty write queue. */
  predicate IsPass(s: State, a: Action) {
    a.TryExecute? && Enabled(s, a) && s.queue != []
  }

  /** Passes of any workers that look at the write queue. */
  function Passes(s: State, actions: seq<Action>): nat
    decreases |actions|
  {
    if actions == [] then 0
    else (if IsPass(s, actions[0]) then 1 else 0) + Passes(Step(s, actions[0]), actions[1..])
  }

  /** No write starts, and every pass reads exec_seq afresh. */
  ghost predicate StartsNothing(s: State, actions: seq<Action>)
    decreases |actions|
  {
    actions != [] ==>
      && Quiet(Step(s, actions[0]))
      && (IsPass(s, actions[0]) ==> actions[0].seen == Exec(s, s.queue[0].key))
      && StartsNothing(Step(s, actions[0]), actions[1..])
  }

  lemma ReadyPassStarts(s: State, a: Action)
    requires IsPass(s, a)
    ensures s.queue[0].num == a.seen ==> !Quiet(Step(s, a))
  {
    if s.queue[0].num == a.seen {
      assert Step(s, a).threads[a.worker].Executing?;
    }
  }

  lemma StepTowardsReady(s: State, a: Action, r: nat)
    requires r < |s.queue| && Ready(s, r) && Quiet(s) && Quiet(Step(s, a))
    requires IsPass(s, a) ==> a.seen == Exec(s, s.queue[0].key)
    ensures var s' := Step(s, a); var r' := if IsPass(s, a) then r - 1 else r;
      0 <= r' < |s'.queue| && Ready(s', r')
  {
    var s' := Step(s, a);
    if IsPass(s, a) {
      ReadyPassStarts(s, a);
      assert s'.queue == s.queue[1..] + [s.queue[0]];
    } else if a.Submit? {
      assert s'.queue[r] == s.queue[r];
    }
  }

  /** Whatever else happens - submissions, prefetches, other workers' passes - a queue with
      a ready task at position `r` is rotated at most `r` times before a write starts. */
  lemma {:induction false} RotationsAreBounded(s: State, actions: seq<Action>, r: nat)
    requires r < |s.queue| && Ready(s, r) && Quiet(s) && StartsNothing(s, actions)
    ensures Passes(s, actions) <= r < |s.queue|
    decreases |actions|
  {
    if actions != [] {
      StepTowardsReady(s, actions[0], r);
      RotationsAreBounded(Step(s, actions[0]), actions[1..], if IsPass(s, actions[0]) then r - 1 else r);
    }
  }

  /** Whenever writes are queued and none is running, some queued task is ready. */
  lemma SomeTaskIsReady(n: nat, actions: seq<Action>) returns (r: nat)
    requires var s := Run(Init(n), actions); s.queue != [] && Quiet(s)
    ensures var s := Run(Init(n), actions); r < |s.queue| && Ready(s, r)
  {
    InitInv(n);
    RunInv(Init(n), actions);
    var s := Run(Init(n), actions);
    assert Pending(s, s.queue[0]);
    var t := Task(s.queue[0].key, Exec(s, s.queue[0].key));
    assert Pending(s, t) && !Running(s, t);
    r :| r < |s.queue| && s.queue[r] == t;
  }

  /******* Admission *******/

  /** With backpressure enabled a submission waits above the high watermark, for a bounded
      time, and then goes ahead; without, it is refused at capacity. */
  datatype Backpressure = Backpressure(enabled: bool, high: nat, capacity: nat)

  /** `submit_write`: the new state, and the task's number if the write was taken. */
  function Admission(s: State, k: Key, flagSeen: bool, b: Backpressure, meanwhile: seq<Action>): (State, Option<nat>) {
    if flagSeen then (s, None)
    else if b.enabled then
      var m := if |s.queue| >= b.high then Run(s, meanwhile) else s;
      if m.shutdown then (m, None) else (DoSubmit(m, k), Some(Next(m, k)))
    else if |s.queue| >= b.capacity then (s, None)
    else (DoSubmit(s, k), Some(Next(s, k)))
  }

  /** A write is taken - and gets the next number of its key - exactly when the flag was not
      seen and, without watermarks, the queue is below capacity; with watermarks, when the
      pool is not shut down after the wait, however long the queue is.  Either way the
      submission is a run of the pool, which ends with the new task if it was taken. */
  lemma AdmissionIsARun(s: State, k: Key, flagSeen: bool, b: Backpressure, meanwhile: seq<Action>)
    ensures var (m, num) := Admission(s, k, flagSeen, b, meanwhile);
      var waited := if b.enabled && !flagSeen && |s.queue| >= b.high then Run(s, meanwhile) else s;
      && (num.Some? <==> !flagSeen && if b.enabled then !waited.shutdown else |s.queue| < b.capacity)
      && (num.None? ==> m == waited)
      && (num.Some? ==> num.value == OrderOf(waited.orders, k).next
                        && m.queue == waited.queue + [Task(k, num.value)] && OrderOf(m.orders, k).next == num.value + 1)
    ensures var (m, num) := Admission(s, k, flagSeen, b, meanwhile);
      exists actions :: m == Run(s, if num.Some? then actions + [Submit(k)] else actions)
  {
    var actions := if !flagSeen && b.enabled && |s.queue| >= b.high then meanwhile else [];
    RunThenSubmit(s, actions, k);
    assert Run(s, []) == s;
  }

  lemma {:induction false} RunThenSubmit(s: State, actions: seq<Action>, k: Key)
    ensures Run(s, actions + [Submit(k)]) == DoSubmit(Run(s, actions), k)
    decreases |actions|
  {
    if actions == [] {
      assert actions + [Submit(k)] == [Submit(k)];
      assert [Submit(k)][1..] == [];
    } else {
      assert (actions + [Submit(k)])[1..] == actions[1..] + [Submit(k)];
      RunThenSubmit(Step(s, actions[0]), actions[1..], k);
    }
  }

  /******* The pool object *******/

  class WorkerPool {
    var writeQueue: seq<Task>
    var orders: map<Key, Order>
    var prefetches: nat
    var threads: seq<Phase>
    var inFlight: int
    var completed: nat
    var shutdown: bool
    var log: seq<Event>               // history
    var atFlag: map<Key, Order>       // history

    function Now(): State
      reads this
    {
      State(writeQueue, orders, prefetches, threads, inFlight, completed, shutdown, log, atFlag)
    }

    constructor (threadCount: nat)
      requires threadCount <= 256
      ensures Now() == Init(threadCount)
    {
      writeQueue, orders, prefetches, inFlight, completed, shutdown := [], map[], 0, 0, 0, false;
      threads := seq(threadCount, _ => Idle);
      log, atFlag := [], map[];
    }

    /** The lock is free during a backpressure wait, and workers then go on. */
    method Interfere(meanwhile: seq<Action>)
      modifies this
      ensures Now() == Run(old(Now()), meanwhile)
    {
      var m := Run(Now(), meanwhile);
      writeQueue, orders, prefetches, threads := m.queue, m.orders, m.prefetches, m.threads;
      inFlight, completed, shutdown, log, atFlag := m.inFlight, m.completed, m.shutdown, m.log, m.atFlag;
    }

    /** `flagSeen` is the shutdown flag as read before the lock was taken, `meanwhile` what
        other threads do if the call has to wait.  The result is the key's next number, and
        also 0 for a write that is not taken; the caller cannot tell the two zeros apart. */
    method SubmitWrite(k: Key, flagSeen: bool, b: Backpressure, meanwhile: seq<Action>) returns (r: nat)
      modifies this
      ensures Now() == Admission(old(Now()), k, flagSeen, b, meanwhile).0
      ensures r == match Admission(old(Now()), k, flagSeen, b, meanwhile).1 case Some(num) => num case None => 0
      ensures !b.enabled && (flagSeen || |old(writeQueue)| >= b.capacity) ==> Now() == old(Now()) && r == 0
      ensures !b.enabled && !flagSeen && |old(writeQueue)| < b.capacity ==> writeQueue == old(writeQueue) + [Task(k, r)]
    {
      if flagSeen { return 0; }
      if b.enabled {
        if |writeQueue| >= b.high { Interfere(meanwhile); }
        if shutdown { return 0; }
      } else if |writeQueue| >= b.capacity {
        return 0;
      }
      var o := if k in orders then orders[k] else Order(0, 0);
      orders := orders[k := o.(next := o.next + 1)];
      writeQueue := writeQueue + [Task(k, o.next)];
      return o.next;
    }

    /** One locked pass of worker `w`; `seen` is what it reads as exec_seq. */
    method TryExecuteOne(w: nat, seen: nat)
      requires Enabled(Now(), TryExecute(w, seen))
      modifies this
      ensures Now() == Apply(old(Now()), TryExecute(w, seen))
    {
      if writeQueue != [] {
        var task := writeQueue[0];
        writeQueue := writeQueue[1..];
        if task.num == seen {
          inFlight := inFlight + 1;
          threads := threads[w := Executing(task)];
          log := log + [Started(task)];
          return;
        }
        writeQueue := writeQueue + [task];
      }
      if prefetches > 0 {
        prefetches := prefetches - 1;
        inFlight := inFlight + 1;
        threads := threads[w := Fetching];
      }
    }

    method FinishCallback(w: nat)
      requires Enabled(Now(), Finish(w))
      modifies this
      ensures Now() == Apply(old(Now()), Finish(w))
    {
      var task := threads[w].task;
      var o := if task.key in orders then orders[task.key] else Order(0, 0);
      orders := orders[task.key := o.(exec := o.exec + 1)];
      threads := threads[w := Advanced(task)];
      log := log + [Finished(task)];
    }

    method CountWrite(w: nat)
      requires Enabled(Now(), Tally(w))
      modifies this
      ensures Now() == Apply(old(Now()), Tally(w))
    {
      completed := completed + 1;
      threads := threads[w := Counted];
    }

    method LeaveFlight(w: nat)
      requires Enabled(Now(), Leave(w))
      modifies this
      ensures Now() == Apply(old(Now()), Leave(w))
    {
      inFlight := inFlight - 1;
      threads := threads[w := Idle];
    }

    method Shutdown()
      modifies this
      ensures Now() == Apply(old(Now()), SetShutdown)
    {
      if !shutdown {
        atFlag := orders;
      }
      shutdown := true;
    }
  }
}
