/**
 The life of a memory view: a read turns a staged buffer into a handle, a release returns
 the buffer, and a dataset refuses to close while one of its views is live.  The handle
 table, the view records and the staging pool have to agree at every step.
 */
module Views {
  import opened Common
  import opened Handles
  import opened Sequences
  import Staging

  /** What the table's payload pointers refer to. */
  datatype Payload = OfDataset(id: nat) | OfView(id: nat) | Foreign

  /** `outstanding` is an unsigned 64-bit counter. */
  datatype DatasetRecord = DatasetRecord(token: Token, outstanding: nat)

  datatype ViewRecord = ViewRecord(token: Token, dataset: nat, buf: nat)

  /** `records` keeps closed datasets too; `views` are the allocated view records;
      `others` are the buffers held by prefetch queues and writes. */
  datatype System = System(
    table: Table<Payload>,
    records: map<nat, DatasetRecord>,
    views: map<nat, ViewRecord>,
    nextRecord: nat,
    nextView: nat,
    pool: Staging.Pool,
    others: set<nat>)

  /******* Host calls *******/

  /** The record with one more, or one fewer, outstanding view. */
  function Bumped(r: DatasetRecord): DatasetRecord { r.(outstanding := (r.outstanding + 1) % TWO_64) }

  function Dropped(r: DatasetRecord): DatasetRecord { r.(outstanding := (r.outstanding + TWO_64 - 1) % TWO_64) }

  function Open(s: System): (System, Token)
    requires Handles.Valid(s.table)
  {
    var (t, k) := Insert(s.table, Dataset, OfDataset(s.nextRecord));
    (s.(table := t, records := s.records[s.nextRecord := DatasetRecord(k, 0)], nextRecord := s.nextRecord + 1), k)
  }

  /** A new view of `buf` on dataset `i`. */
  function WithView(s: System, i: nat, buf: nat): System
    requires Handles.Valid(s.table) && i in s.records
  {
    var (t, k) := Insert(s.table, View, OfView(s.nextView));
    s.(table := t, views := s.views[s.nextView := ViewRecord(k, i, buf)], nextView := s.nextView + 1,
       records := s.records[i := Bumped(s.records[i])], others := s.others - {buf})
  }

  /** What stands between the handle and the view: the error of an argument check or of the
      prefetch queue, or AMIO_OK and the buffer. */
  datatype Fetched = Fetched(status: Status, buf: Option<nat>)

  /** `amio_read`, given that. */
  function Read(s: System, k: Token, got: Fetched): (System, Status, Token)
    requires Handles.Valid(s.table)
  {
    var (status, payload) := Lookup(s.table, k, Dataset);
    if status != Ok then (s, status, 0)
    else if payload.None? || !payload.value.OfDataset? || payload.value.id !in s.records then (s, InvalidHandle, 0)
    else if got.status != Ok then (s, got.status, 0)
    else if got.buf.None? || got.buf.value !in s.others then (s, BackendFailure, 0)
    else
      (WithView(s, payload.value.id, got.buf.value), Ok, Insert(s.table, View, OfView(s.nextView)).1)
  }

  function ReturnBuffer(p: Staging.Pool, b: nat): Staging.Pool {
    if Staging.InRange(p) && Staging.Referenced(p, b) then Staging.Release(p, b) else p
  }

  /** View `v` is gone: its buffer, its count, its handle and its record. */
  function WithoutView(s: System, v: nat): System
    requires Handles.Valid(s.table) && v in s.views
  {
    var w := s.views[v];
    var records := if w.dataset in s.records then s.records[w.dataset := Dropped(s.records[w.dataset])] else s.records;
    s.(table := Handles.Release(s.table, w.token, View).0, views := s.views - {v}, records := records,
       pool := ReturnBuffer(s.pool, w.buf))
  }

  function ReleaseView(s: System, k: Token): (System, Status)
    requires Handles.Valid(s.table)
  {
    var (status, payload) := Lookup(s.table, k, View);
    if status != Ok then (s, status)
    else if payload.None? || !payload.value.OfView? || payload.value.id !in s.views then (s, InvalidHandle)
    else (WithoutView(s, payload.value.id), Ok)
  }

  /** The prefetch queues of a closing dataset return what they have staged. */
  function ReturnStaged(s: System, staged: seq<nat>): System
    decreases |staged|
  {
    if staged == [] then s else ReturnStaged(OtherReturns(s, staged[0]), staged[1..])
  }

  function OtherReturns(s: System, b: nat): System {
    if b in s.others then s.(pool := ReturnBuffer(s.pool, b), others := s.others - {b}) else s
  }

  /** What closing comes upon: a failure recorded for the dataset's writes, and whether the
      driver's flush and close return without throwing. */
  datatype Teardown = Teardown(failure: Option<Status>, flushed: bool, closed: bool)

  /** The recorded failure is reported first; a driver that throws turns success into a
      backend failure. */
  function TeardownStatus(t: Teardown): (r: Status)
    ensures t.failure.Some? && t.failure.value != Ok ==> r == t.failure.value
    ensures t.failure.None? ==> (r == Ok <==> t.flushed && t.closed)
    ensures r == Ok ==> t.flushed && t.closed
  {
    var recorded := if t.failure.Some? then t.failure.value else Ok;
    var afterFlush := if !t.flushed && recorded == Ok then BackendFailure else recorded;
    if !t.closed && afterFlush == Ok then BackendFailure else afterFlush
  }

  function Close(s: System, k: Token, staged: seq<nat>, teardown: Teardown): (System, Status)
    requires Handles.Valid(s.table)
  {
    var (status, payload) := Lookup(s.table, k, Dataset);
    if status != Ok then (s, status)
    else if payload.None? || !payload.value.OfDataset? || payload.value.id !in s.records then (s, InvalidHandle)
    else if s.records[payload.value.id].outstanding > 0 then (s, ViewsOutstanding)
    else
      (ReturnStaged(s, staged).(table := Handles.Release(s.table, s.records[payload.value.id].token, Dataset).0), TeardownStatus(teardown))
  }

  /******* Runs *******/

  datatype Op =
    | OpOpen
    | OpRead(dataset: Token, got: Fetched)
    | OpReleaseView(view: Token)
    | OpClose(dataset: Token, staged: seq<nat>, teardown: Teardown)
    | OtherAcquires(required: nat)
    | OtherReleases(slot: nat)
    | OtherHandle(kind: Kind)                       // core and I/O handles come and go
    | OtherHandleRelease(token: Token, kind: Kind)

  predicate Foreigner(kind: Kind) { kind.Core? || kind.Io? }

  function Apply(s: System, op: Op): System
    requires Handles.Valid(s.table) && Staging.Valid(s.pool)
  {
    match op
    case OpOpen => Open(s).0
    case OpRead(k, got) => Read(s, k, got).0
    case OpReleaseView(k) => ReleaseView(s, k).0
    case OpClose(k, staged, teardown) => Close(s, k, staged, teardown).0
    case OtherAcquires(n) =>
      var (p, r) := Staging.TryAcquire(s.pool, n);
      if r.None? then s else s.(pool := p, others := s.others + {r.value})
    case OtherReleases(b) => OtherReturns(s, b)
    case OtherHandle(kind) => if Foreigner(kind) then s.(table := Insert(s.table, kind, Foreign).0) else s
    case OtherHandleRelease(k, kind) => if Foreigner(kind) then s.(table := Handles.Release(s.table, k, kind).0) else s
  }

  /******* Invariant *******/

  type Bindings = map<Token, (Kind, Payload)>

  /** Every handle leads to the record that it was made for, and back. */
  ghost predicate Linked(b: Bindings, records: map<nat, DatasetRecord>, views: map<nat, ViewRecord>) {
    && (forall k :: k in b ==> BindingSound(b[k], k, records, views))
    && (forall v :: v in views ==> views[v].token in b && b[views[v].token] == (View, OfView(v)))
    && (forall v :: v in views ==> OpenIn(b, records, views[v].dataset))
  }

  ghost predicate BindingSound(c: (Kind, Payload), k: Token, records: map<nat, DatasetRecord>, views: map<nat, ViewRecord>) {
    match c.1
    case OfDataset(i) => c.0 == Dataset && i in records && records[i].token == k
    case OfView(v) => c.0 == View && v in views && views[v].token == k
    case Foreign => Foreigner(c.0)
  }

  predicate OpenIn(b: Bindings, records: map<nat, DatasetRecord>, i: nat) {
    i in records && records[i].token in b && b[records[i].token] == (Dataset, OfDataset(i))
  }

  /** The live view handles of dataset `i`. */
  function ViewTokens(b: Bindings, views: map<nat, ViewRecord>, i: nat): set<Token> {
    set k | k in b && b[k].1.OfView? && b[k].1.id in views && views[b[k].1.id].dataset == i
  }

  ghost predicate Counted(b: Bindings, records: map<nat, DatasetRecord>, views: map<nat, ViewRecord>, most: nat) {
    forall i :: i in records ==> records[i].outstanding == |ViewTokens(b, views, i)| <= most
  }

  /** Views and the other users hold different buffers, each with one reference. */
  ghost predicate BuffersSound(pool: Staging.Pool, views: map<nat, ViewRecord>, others: set<nat>) {
    && Staging.Valid(pool)
    && (forall v :: v in views ==> Staging.Held(pool, views[v].buf) && views[v].buf !in others)
    && (forall v, w :: v in views && w in views && v != w ==> views[v].buf != views[w].buf)
    && (forall b :: b in others ==> Staging.Held(pool, b))
  }

  ghost predicate Fresh(s: System) {
    && (forall i :: i in s.records ==> i < s.nextRecord)
    && (forall v :: v in s.views ==> v < s.nextView)
  }

  /** With `b` the content of the handle table. */
  ghost predicate InvWith(s: System, b: Bindings) {
    && Fresh(s) && Linked(b, s.records, s.views) && Counted(b, s.records, s.views, s.nextView)
    && BuffersSound(s.pool, s.views, s.others)
  }

  ghost predicate Inv(s: System) {
    Handles.Valid(s.table) && InvWith(s, Live(s.table))
  }

  /** Neither the slot index space nor the view counter is used up. */
  predicate Small(s: System) {
    |s.table.slots| < TWO_32 - 1 && s.nextView < TWO_64 - 1
  }

  /******* Handles *******/

  lemma BindDataset(b: Bindings, records: map<nat, DatasetRecord>, views: map<nat, ViewRecord>, most: nat, k: Token, i: nat)
    requires Linked(b, records, views) && Counted(b, records, views, most) && k !in b && i !in records
    ensures var b', r' := b[k := (Dataset, OfDataset(i))], records[i := DatasetRecord(k, 0)];
      Linked(b', r', views) && Counted(b', r', views, most)
  {
    var b', r' := b[k := (Dataset, OfDataset(i))], records[i := DatasetRecord(k, 0)];
    forall j | j in r' ensures r'[j].outstanding == |ViewTokens(b', views, j)| <= most {
      assert ViewTokens(b', views, j) == ViewTokens(b, views, j);
      if j == i {
        assert ViewTokens(b, views, i) == {};
      }
    }
  }

  lemma LinkView(b: Bindings, records: map<nat, DatasetRecord>, views: map<nat, ViewRecord>, k: Token, i: nat, v: nat, buf: nat)
    requires Linked(b, records, views) && k !in b && v !in views && OpenIn(b, records, i)
    ensures Linked(b[k := (View, OfView(v))], records[i := Bumped(records[i])], views[v := ViewRecord(k, i, buf)])
  {
    var b', r', v' := b[k := (View, OfView(v))], records[i := Bumped(records[i])], views[v := ViewRecord(k, i, buf)];
    forall w | w in v' ensures OpenIn(b', r', v'[w].dataset) {
      if w != v { assert OpenIn(b, records, views[w].dataset); }
    }
    forall j | j in b' ensures BindingSound(b'[j], j, r', v') {
      if j != k { assert BindingSound(b[j], j, records, views); }
    }
  }

  lemma ViewsAreKnown(b: Bindings, records: map<nat, DatasetRecord>, views: map<nat, ViewRecord>)
    requires Linked(b, records, views)
    ensures forall l :: l in b && b[l].1.OfView? ==> b[l].1.id in views && views[b[l].1.id].token == l
  {
    forall l | l in b && b[l].1.OfView? ensures b[l].1.id in views && views[b[l].1.id].token == l {
      assert BindingSound(b[l], l, records, views);
    }
  }

  lemma CountView(b: Bindings, records: map<nat, DatasetRecord>, views: map<nat, ViewRecord>, most: nat, k: Token, i: nat, v: nat, buf: nat)
    requires forall l :: l in b && b[l].1.OfView? ==> b[l].1.id in views
    requires Counted(b, records, views, most) && k !in b && v !in views && i in records && most < TWO_64 - 1
    ensures Counted(b[k := (View, OfView(v))], records[i := Bumped(records[i])], views[v := ViewRecord(k, i, buf)], most + 1)
  {
    var b', r', v' := b[k := (View, OfView(v))], records[i := Bumped(records[i])], views[v := ViewRecord(k, i, buf)];
    forall j | j in r' ensures r'[j].outstanding == |ViewTokens(b', v', j)| <= most + 1 {
      ViewTokensGrow(b, views, k, i, v, buf, j);
      assert records[j].outstanding == |ViewTokens(b, views, j)| <= most;
      if j == i { BumpedCounts(records[i], ViewTokens(b, views, i), k); }
    }
  }

  lemma BumpedCounts(r: DatasetRecord, tokens: set<Token>, k: Token)
    requires r.outstanding == |tokens| < TWO_64 - 1 && k !in tokens
    ensures Bumped(r).outstanding == |tokens + {k}| == |tokens| + 1
  {
  }

  lemma ViewTokensGrow(b: Bindings, views: map<nat, ViewRecord>, k: Token, i: nat, v: nat, buf: nat, j: nat)
    requires k !in b && v !in views && forall l :: l in b && b[l].1.OfView? ==> b[l].1.id in views
    ensures ViewTokens(b[k := (View, OfView(v))], views[v := ViewRecord(k, i, buf)], j)
         == ViewTokens(b, views, j) + (if j == i then {k} else {})
    ensures k !in ViewTokens(b, views, j)
  {
  }

  lemma ViewTokensShrink(b: Bindings, views: map<nat, ViewRecord>, k: Token, v: nat, j: nat)
    requires k in b && v in views && b[k] == (View, OfView(v))
    requires forall l :: l in b && b[l].1.OfView? ==> b[l].1.id in views && views[b[l].1.id].token == l
    ensures ViewTokens(b - {k}, views - {v}, j) == ViewTokens(b, views, j) - {k}
    ensures k in ViewTokens(b, views, j) <==> j == views[v].dataset
  {
  }

  lemma UnlinkView(b: Bindings, records: map<nat, DatasetRecord>, views: map<nat, ViewRecord>, v: nat)
    requires Linked(b, records, views) && v in views
    ensures var i := views[v].dataset;
      i in records && Linked(b - {views[v].token}, records[i := Dropped(records[i])], views - {v})
  {
    var i, k := views[v].dataset, views[v].token;
    assert OpenIn(b, records, i);
    var b', r', v' := b - {k}, records[i := Dropped(records[i])], views - {v};
    forall w | w in v' ensures OpenIn(b', r', v'[w].dataset) {
      assert OpenIn(b, records, views[w].dataset);
    }
    forall j | j in b' ensures BindingSound(b'[j], j, r', v') {
      assert BindingSound(b[j], j, records, views);
    }
  }

  lemma UncountView(b: Bindings, records: map<nat, DatasetRecord>, views: map<nat, ViewRecord>, most: nat, v: nat)
    requires Linked(b, records, views) && Counted(b, records, views, most) && most < TWO_64 && v in views
    ensures var i := views[v].dataset;
      i in records && Counted(b - {views[v].token}, records[i := Dropped(records[i])], views - {v}, most)
  {
    var i, k := views[v].dataset, views[v].token;
    assert OpenIn(b, records, i);
    var b', r', v' := b - {k}, records[i := Dropped(records[i])], views - {v};
    ViewsAreKnown(b, records, views);
    forall j | j in r' ensures r'[j].outstanding == |ViewTokens(b', v', j)| <= most {
      assert records[j].outstanding == |ViewTokens(b, views, j)| <= most;
      ViewTokensShrink(b, views, k, v, j);
      if j == i { DroppedCounts(records[i], ViewTokens(b, views, i), k); }
    }
  }

  lemma DroppedCounts(r: DatasetRecord, tokens: set<Token>, k: Token)
    requires r.outstanding == |tokens| < TWO_64 && k in tokens
    ensures Dropped(r).outstanding == |tokens - {k}| == |tokens| - 1
  {
  }

  lemma UnbindDataset(b: Bindings, records: map<nat, DatasetRecord>, views: map<nat, ViewRecord>, most: nat, k: Token, i: nat)
    requires Linked(b, records, views) && Counted(b, records, views, most)
    requires OpenIn(b, records, i) && k == records[i].token && records[i].outstanding == 0
    ensures Linked(b - {k}, records, views) && Counted(b - {k}, records, views, most)
  {
    var b' := b - {k};
    forall v | v in views ensures OpenIn(b', records, views[v].dataset) {
      assert OpenIn(b, records, views[v].dataset);
      assert ViewTokens(b, views, i) == {};
      assert views[v].token !in ViewTokens(b, views, i);
    }
    forall j | j in records ensures records[j].outstanding == |ViewTokens(b', views, j)| <= most {
      assert ViewTokens(b', views, j) == ViewTokens(b, views, j);
    }
  }

  lemma BindForeign(b: Bindings, records: map<nat, DatasetRecord>, views: map<nat, ViewRecord>, most: nat, k: Token, kind: Kind)
    requires Linked(b, records, views) && Counted(b, records, views, most) && k !in b && Foreigner(kind)
    ensures var b' := b[k := (kind, Foreign)]; Linked(b', records, views) && Counted(b', records, views, most)
  {
    var b' := b[k := (kind, Foreign)];
    ForeignIsLinked(b, records, views, k, kind);
    forall j | j in records ensures records[j].outstanding == |ViewTokens(b', views, j)| <= most {
      TokensWithForeign(b, views, k, kind, j);
    }
  }

  lemma ForeignIsLinked(b: Bindings, records: map<nat, DatasetRecord>, views: map<nat, ViewRecord>, k: Token, kind: Kind)
    requires Linked(b, records, views) && k !in b && Foreigner(kind)
    ensures Linked(b[k := (kind, Foreign)], records, views)
  {
    var b' := b[k := (kind, Foreign)];
    forall v | v in views ensures OpenIn(b', records, views[v].dataset) {
      assert OpenIn(b, records, views[v].dataset);
    }
    forall j | j in b' ensures BindingSound(b'[j], j, records, views) {
      if j != k { assert BindingSound(b[j], j, records, views); }
    }
  }

  lemma TokensWithForeign(b: Bindings, views: map<nat, ViewRecord>, k: Token, kind: Kind, j: nat)
    requires k !in b
    ensures ViewTokens(b[k := (kind, Foreign)], views, j) == ViewTokens(b, views, j)
  {
  }

  lemma TokensWithout(b: Bindings, views: map<nat, ViewRecord>, k: Token, j: nat)
    requires k in b && !b[k].1.OfView?
    ensures ViewTokens(b - {k}, views, j) == ViewTokens(b, views, j)
  {
  }

  lemma UnlinkForeign(b: Bindings, records: map<nat, DatasetRecord>, views: map<nat, ViewRecord>, k: Token)
    requires Linked(b, records, views) && k in b && b[k].1.Foreign?
    ensures Linked(b - {k}, records, views)
  {
    var b' := b - {k};
    forall v | v in views ensures OpenIn(b', records, views[v].dataset) {
      assert OpenIn(b, records, views[v].dataset);
    }
    forall j | j in b' ensures BindingSound(b'[j], j, records, views) {
      assert BindingSound(b[j], j, records, views);
    }
  }

  lemma UnbindForeign(b: Bindings, records: map<nat, DatasetRecord>, views: map<nat, ViewRecord>, most: nat, k: Token)
    requires Linked(b, records, views) && Counted(b, records, views, most) && k in b && Foreigner(b[k].0)
    ensures Linked(b - {k}, records, views) && Counted(b - {k}, records, views, most)
  {
    assert BindingSound(b[k], k, records, views);
    UnlinkForeign(b, records, views, k);
    forall j | j in records ensures records[j].outstanding == |ViewTokens(b - {k}, views, j)| <= most {
      TokensWithout(b, views, k, j);
    }
  }

  /******* Every call keeps the invariant *******/

  /** A new dataset has its own handle and no views. */
  lemma OpenKeeps(s: System)
    requires Inv(s) && Small(s)
    ensures Inv(Open(s).0) && |Open(s).0.table.slots| <= |s.table.slots| + 1
    ensures var (s', k) := Open(s);
      && k != 0 && k !in Live(s.table) && Live(s'.table) == Live(s.table)[k := (Dataset, OfDataset(s.nextRecord))]
      && s'.records == s.records[s.nextRecord := DatasetRecord(k, 0)] && s'.views == s.views && s'.pool == s.pool
  {
    InsertRefinesMap(s.table, Dataset, OfDataset(s.nextRecord));
    var (t, k) := Insert(s.table, Dataset, OfDataset(s.nextRecord));
    BindDataset(Live(s.table), s.records, s.views, s.nextView, k, s.nextRecord);
  }

  lemma ReadEffect(s: System, k: Token, got: Fetched)
    requires Inv(s) && Small(s) && Read(s, k, got).1 == Ok
    ensures var (s', _, vk) := Read(s, k, got);
      && k in Live(s.table) && Live(s.table)[k].0 == Dataset && Live(s.table)[k].1.OfDataset?
      && var i := Live(s.table)[k].1.id;
      && OpenIn(Live(s.table), s.records, i)
      && got.buf.Some? && got.buf.value in s.others
      && vk != 0 && vk !in Live(s.table)
      && Handles.Valid(s'.table) && Live(s'.table) == Live(s.table)[vk := (View, OfView(s.nextView))]
      && |s'.table.slots| <= |s.table.slots| + 1
      && s' == s.(table := s'.table, views := s.views[s.nextView := ViewRecord(vk, i, got.buf.value)], nextView := s.nextView + 1,
                  records := s.records[i := Bumped(s.records[i])], others := s.others - {got.buf.value})
  {
    LookupRefinesMap(s.table, k, Dataset);
    assert BindingSound(Live(s.table)[k], k, s.records, s.views);
    InsertRefinesMap(s.table, View, OfView(s.nextView));
  }

  /** What a read answers: the handle's error, else that of the argument checks or the queue,
      else a backend failure when no buffer came, else AMIO_OK. */
  lemma ReadVerdict(s: System, k: Token, got: Fetched)
    requires Inv(s) && (got.buf.Some? ==> got.buf.value in s.others)
    ensures Read(s, k, got).1 ==
      if k == 0 then NullHandle
      else if k !in Live(s.table) || Live(s.table)[k].0 != Dataset then InvalidHandle
      else if got.status != Ok then got.status
      else if got.buf.None? then BackendFailure
      else Ok
  {
    LookupRefinesMap(s.table, k, Dataset);
    DatasetHandle(s, k);
  }

  /** A read fails without effect, or gives a new view on the buffer. */
  lemma ReadKeeps(s: System, k: Token, got: Fetched)
    requires Inv(s) && Small(s)
    ensures var (s', status, vk) := Read(s, k, got);
      && Inv(s') && |s'.table.slots| <= |s.table.slots| + 1 && s'.nextView <= s.nextView + 1
      && (status != Ok ==> s' == s && vk == 0)
  {
    if Read(s, k, got).1 == Ok {
      ReadOkKeeps(s, k, got);
    }
  }

  lemma ReadOkKeeps(s: System, k: Token, got: Fetched)
    requires Inv(s) && Small(s) && Read(s, k, got).1 == Ok
    ensures var s' := Read(s, k, got).0;
      Inv(s') && |s'.table.slots| <= |s.table.slots| + 1 && s'.nextView == s.nextView + 1
  {
    ReadEffect(s, k, got);
    NewViewKeeps(s, Read(s, k, got).0, Live(s.table), Read(s, k, got).2, Live(s.table)[k].1.id, got.buf.value);
  }

  lemma NewViewKeeps(s: System, s': System, b: Bindings, vk: Token, i: nat, buf: nat)
    requires InvWith(s, b) && Small(s) && OpenIn(b, s.records, i) && buf in s.others && vk !in b
    requires s' == s.(table := s'.table, views := s.views[s.nextView := ViewRecord(vk, i, buf)], nextView := s.nextView + 1,
                      records := s.records[i := Bumped(s.records[i])], others := s.others - {buf})
    ensures InvWith(s', b[vk := (View, OfView(s.nextView))])
  {
    NewViewLinks(b, s.records, s.views, s.nextView, vk, i, buf);
    GiveKeepsBuffers(s.pool, s.views, s.others, s.nextView, ViewRecord(vk, i, buf));
  }

  lemma NewViewLinks(b: Bindings, records: map<nat, DatasetRecord>, views: map<nat, ViewRecord>, v: nat, k: Token, i: nat, buf: nat)
    requires Linked(b, records, views) && Counted(b, records, views, v) && k !in b && v !in views && OpenIn(b, records, i)
    requires v < TWO_64 - 1
    ensures var b', r', v' := b[k := (View, OfView(v))], records[i := Bumped(records[i])], views[v := ViewRecord(k, i, buf)];
      Linked(b', r', v') && Counted(b', r', v', v + 1)
  {
    LinkView(b, records, views, k, i, v, buf);
    ViewsAreKnown(b, records, views);
    CountView(b, records, views, v, k, i, v, buf);
  }

  lemma GiveKeepsBuffers(pool: Staging.Pool, views: map<nat, ViewRecord>, others: set<nat>, v: nat, w: ViewRecord)
    requires BuffersSound(pool, views, others) && v !in views && w.buf in others
    ensures BuffersSound(pool, views[v := w], others - {w.buf})
  {
  }

  lemma ReturnKeepsBuffers(pool: Staging.Pool, views: map<nat, ViewRecord>, others: set<nat>, v: nat)
    requires BuffersSound(pool, views, others) && v in views
    ensures var p := ReturnBuffer(pool, views[v].buf);
      && BuffersSound(p, views - {v}, others) && !Staging.Referenced(p, views[v].buf)
      && Staging.OthersKept(pool, p, views[v].buf)
  {
    Staging.ReleaseFrame(pool, views[v].buf);
  }

  lemma ReleaseViewEffect(s: System, k: Token)
    requires Inv(s)
    ensures var (s', status) := ReleaseView(s, k);
      && (status == Ok <==> k in Live(s.table) && Live(s.table)[k].0 == View)
      && (status == Ok ==> var v := Live(s.table)[k].1.id;
            && Live(s.table)[k].1.OfView? && v in s.views && s.views[v].token == k
            && s.views[v].dataset in s.records
            && s'.records == s.records[s.views[v].dataset := Dropped(s.records[s.views[v].dataset])]
            && s'.views == s.views - {v} && s'.pool == ReturnBuffer(s.pool, s.views[v].buf)
            && Handles.Valid(s'.table) && Live(s'.table) == Live(s.table) - {k} && |s'.table.slots| == |s.table.slots|
            && s'.others == s.others && s'.nextView == s.nextView && s'.nextRecord == s.nextRecord)
      && (status != Ok ==> s' == s && status == if k == 0 then NullHandle else InvalidHandle)
  {
    LookupRefinesMap(s.table, k, View);
    ReleaseRefinesMap(s.table, k, View);
    if k in Live(s.table) && Live(s.table)[k].0 == View {
      assert BindingSound(Live(s.table)[k], k, s.records, s.views);
      assert OpenIn(Live(s.table), s.records, s.views[Live(s.table)[k].1.id].dataset);
    }
  }

  /** Releasing a view frees exactly its buffer and its handle. */
  lemma ReleaseViewKeeps(s: System, k: Token)
    requires Inv(s) && Small(s)
    ensures Inv(ReleaseView(s, k).0)
  {
    ReleaseViewEffect(s, k);
    if ReleaseView(s, k).1 == Ok {
      GoneViewKeeps(s, ReleaseView(s, k).0, Live(s.table), Live(s.table)[k].1.id);
    }
  }

  lemma GoneViewKeeps(s: System, s': System, b: Bindings, v: nat)
    requires InvWith(s, b) && Small(s) && v in s.views && s.views[v].dataset in s.records
    requires s'.records == s.records[s.views[v].dataset := Dropped(s.records[s.views[v].dataset])]
    requires s'.views == s.views - {v} && s'.pool == ReturnBuffer(s.pool, s.views[v].buf)
    requires s'.others == s.others && s'.nextView == s.nextView && s'.nextRecord == s.nextRecord
    ensures InvWith(s', b - {s.views[v].token})
  {
    GoneViewLinks(b, s.records, s.views, s.nextView, v);
    ReturnKeepsBuffers(s.pool, s.views, s.others, v);
  }

  lemma GoneViewLinks(b: Bindings, records: map<nat, DatasetRecord>, views: map<nat, ViewRecord>, most: nat, v: nat)
    requires Linked(b, records, views) && Counted(b, records, views, most) && most < TWO_64 && v in views
    ensures var i := views[v].dataset;
      && i in records
      && var b', r', v' := b - {views[v].token}, records[i := Dropped(records[i])], views - {v};
         Linked(b', r', v') && Counted(b', r', v', most)
  {
    UnlinkView(b, records, views, v);
    UncountView(b, records, views, most, v);
  }

  lemma OtherReturnsKeeps(s: System, b: nat)
    requires BuffersSound(s.pool, s.views, s.others)
    ensures var s' := OtherReturns(s, b);
      && BuffersSound(s'.pool, s'.views, s'.others) && s' == s.(pool := s'.pool, others := s'.others)
      && (forall v :: v in s.views ==> Staging.Block(s'.pool, s.views[v].buf) == Staging.Block(s.pool, s.views[v].buf))
  {
    if b in s.others { Staging.ReleaseFrame(s.pool, b); }
  }

  lemma ReturnStagedStep(s: System, staged: seq<nat>, i: nat)
    requires i < |staged|
    ensures ReturnStaged(s, staged[i..]) == ReturnStaged(OtherReturns(s, staged[i]), staged[i + 1..])
  {
    assert staged[i..][1..] == staged[i + 1..];
  }

  lemma {:induction false} ReturnStagedKeeps(s: System, staged: seq<nat>)
    requires BuffersSound(s.pool, s.views, s.others)
    ensures var s' := ReturnStaged(s, staged);
      && BuffersSound(s'.pool, s'.views, s'.others) && s' == s.(pool := s'.pool, others := s'.others)
      && (forall v :: v in s.views ==> Staging.Block(s'.pool, s.views[v].buf) == Staging.Block(s.pool, s.views[v].buf))
    decreases |staged|
  {
    if staged != [] {
      OtherReturnsKeeps(s, staged[0]);
      ReturnStagedKeeps(OtherReturns(s, staged[0]), staged[1..]);
    }
  }

  /** `close_dataset` is refused, with no change at all, exactly when the dataset has a
      live view; otherwise the handle goes, and only that. */
  lemma CloseEffect(s: System, k: Token, staged: seq<nat>, teardown: Teardown)
    requires Inv(s) && k in Live(s.table) && Live(s.table)[k].0 == Dataset
    ensures var (s', status) := Close(s, k, staged, teardown);
      && Live(s.table)[k].1.OfDataset?
      && var i := Live(s.table)[k].1.id; var live := ViewTokens(Live(s.table), s.views, i);
      && (live != {} ==> s' == s && status == ViewsOutstanding)
      && (live == {} ==> status == TeardownStatus(teardown) && Handles.Valid(s'.table) && Live(s'.table) == Live(s.table) - {k})
      && s'.views == s.views && s'.records == s.records && s'.nextView == s.nextView && s'.nextRecord == s.nextRecord
      && |s'.table.slots| == |s.table.slots|
      && BuffersSound(s'.pool, s'.views, s'.others)
      && (forall v :: v in s.views ==> Staging.Block(s'.pool, s.views[v].buf) == Staging.Block(s.pool, s.views[v].buf))
  {
    LookupRefinesMap(s.table, k, Dataset);
    ReleaseRefinesMap(s.table, k, Dataset);
    assert BindingSound(Live(s.table)[k], k, s.records, s.views);
    ReturnStagedKeeps(s, staged);
  }

  lemma OneReturns(s: System, b: nat)
    requires BuffersSound(s.pool, s.views, s.others) && b in s.others
    ensures var s' := OtherReturns(s, b);
      && s'.others == s.others - {b} && SlotsReturned(s.pool, s'.pool, {b})
  {
    Staging.ReleaseCorrect(s.pool, b);
  }

  /** The slots of `returned` have no reference any more and keep their storage; every other
      slot is as before. */
  ghost predicate SlotsReturned(p: Staging.Pool, q: Staging.Pool, returned: set<nat>) {
    && |q.buffers| == |p.buffers|
    && (forall b :: b in returned ==> b < |p.buffers| && q.buffers[b].refs == 0 && q.buffers[b].data == p.buffers[b].data)
    && (forall j :: 0 <= j < |p.buffers| && j !in returned ==> q.buffers[j] == p.buffers[j])
  }

  function Members(staged: seq<nat>): set<nat> { set b | b in staged }

  lemma MembersOfTail(staged: seq<nat>)
    requires staged != [] && Distinct(staged)
    ensures Distinct(staged[1..]) && staged[0] !in Members(staged[1..])
    ensures Members(staged) == {staged[0]} + Members(staged[1..])
  {
  }

  lemma {:induction false} AllReturn(s: System, staged: seq<nat>)
    requires BuffersSound(s.pool, s.views, s.others) && Distinct(staged) && Members(staged) <= s.others
    ensures var s' := ReturnStaged(s, staged);
      s'.others == s.others - Members(staged) && SlotsReturned(s.pool, s'.pool, Members(staged))
    decreases |staged|
  {
    if staged != [] {
      var m := OtherReturns(s, staged[0]);
      OneReturns(s, staged[0]);
      OtherReturnsKeeps(s, staged[0]);
      MembersOfTail(staged);
      AllReturn(m, staged[1..]);
      ReturnedAdds(s.pool, m.pool, ReturnStaged(m, staged[1..]).pool, staged[0], Members(staged[1..]));
    }
  }

  lemma ReturnedAdds(p: Staging.Pool, m: Staging.Pool, q: Staging.Pool, b: nat, rest: set<nat>)
    requires SlotsReturned(p, m, {b}) && SlotsReturned(m, q, rest) && b !in rest
    ensures SlotsReturned(p, q, {b} + rest)
  {
  }

  /** An accepted close returns everything that the dataset's queues have staged: those
      slots have no reference any more and no owner, and every other slot - of views, of
      other datasets, free ones - is as before. */
  lemma CloseReturnsStaged(s: System, k: Token, staged: seq<nat>, teardown: Teardown)
    requires Inv(s) && k in Live(s.table) && Live(s.table)[k].0 == Dataset
    requires ViewTokens(Live(s.table), s.views, Live(s.table)[k].1.id) == {}
    requires forall i :: 0 <= i < |staged| ==> staged[i] in s.others
    requires forall i, j :: 0 <= i < j < |staged| ==> staged[i] != staged[j]
    ensures var s' := Close(s, k, staged, teardown).0;
      && s'.others == s.others - (set b | b in staged)
      && |s'.pool.buffers| == |s.pool.buffers|
      && (forall b :: b in staged ==> b < |s.pool.buffers| && s'.pool.buffers[b].refs == 0)
      && (forall j :: 0 <= j < |s.pool.buffers| && j !in staged ==> s'.pool.buffers[j] == s.pool.buffers[j])
  {
    LookupRefinesMap(s.table, k, Dataset);
    assert BindingSound(Live(s.table)[k], k, s.records, s.views);
    assert s.records[Live(s.table)[k].1.id].outstanding == 0;
    assert Members(staged) <= s.others;
    AllReturn(s, staged);
  }

  lemma CloseKeeps(s: System, k: Token, staged: seq<nat>, teardown: Teardown)
    requires Inv(s)
    ensures Inv(Close(s, k, staged, teardown).0) && |Close(s, k, staged, teardown).0.table.slots| == |s.table.slots|
  {
    LookupRefinesMap(s.table, k, Dataset);
    if k in Live(s.table) && Live(s.table)[k].0 == Dataset {
      CloseEffect(s, k, staged, teardown);
      assert BindingSound(Live(s.table)[k], k, s.records, s.views);
      var i := Live(s.table)[k].1.id;
      if s.records[i].outstanding == 0 {
        UnbindDataset(Live(s.table), s.records, s.views, s.nextView, k, i);
      }
    }
  }

  lemma OthersKeep(s: System, op: Op)
    requires Inv(s) && Small(s) && (op.OtherAcquires? || op.OtherReleases?)
    ensures var s' := Apply(s, op);
      && Inv(s') && s' == s.(pool := s'.pool, others := s'.others)
      && (forall v :: v in s.views ==> Staging.Block(s'.pool, s.views[v].buf) == Staging.Block(s.pool, s.views[v].buf))
  {
    if op.OtherReleases? {
      OtherReturnsKeeps(s, op.slot);
    } else {
      AcquireKeepsBuffers(s.pool, s.views, s.others, op.required);
    }
  }

  lemma AcquireKeepsBuffers(pool: Staging.Pool, views: map<nat, ViewRecord>, others: set<nat>, n: nat)
    requires BuffersSound(pool, views, others)
    ensures var (p, r) := Staging.TryAcquire(pool, n);
      r.Some? ==>
        && BuffersSound(p, views, others + {r.value})
        && (forall v :: v in views ==> Staging.Block(p, views[v].buf) == Staging.Block(pool, views[v].buf))
  {
    Staging.AcquireFrame(pool, n);
    var (p, r) := Staging.TryAcquire(pool, n);
    if r.Some? { GainKeepsBuffers(pool, p, views, others, r.value); }
  }

  lemma GainKeepsBuffers(pool: Staging.Pool, p: Staging.Pool, views: map<nat, ViewRecord>, others: set<nat>, i: nat)
    requires BuffersSound(pool, views, others) && Staging.Valid(p)
    requires !Staging.Held(pool, i) && Staging.Held(p, i) && Staging.OthersKept(pool, p, i)
    ensures BuffersSound(p, views, others + {i})
    ensures forall v :: v in views ==> Staging.Block(p, views[v].buf) == Staging.Block(pool, views[v].buf)
  {
  }

  lemma OtherHandlesKeep(s: System, op: Op)
    requires Inv(s) && Small(s) && (op.OtherHandle? || op.OtherHandleRelease?)
    ensures var s' := Apply(s, op); Inv(s') && s' == s.(table := s'.table) && |s'.table.slots| <= |s.table.slots| + 1
  {
    if op.OtherHandle? && Foreigner(op.kind) {
      InsertRefinesMap(s.table, op.kind, Foreign);
      BindForeign(Live(s.table), s.records, s.views, s.nextView, Insert(s.table, op.kind, Foreign).1, op.kind);
    } else if op.OtherHandleRelease? && Foreigner(op.kind) {
      ReleaseRefinesMap(s.table, op.token, op.kind);
      if Handles.Release(s.table, op.token, op.kind).1 == Ok {
        UnbindForeign(Live(s.table), s.records, s.views, s.nextView, op.token);
      }
    }
  }

  /** View `v` still is what it was. */
  ghost predicate Keeps(s: System, s': System, v: nat) {
    v in s.views && v in s'.views ==> s'.views[v] == s.views[v] && Staging.Block(s'.pool, s.views[v].buf) == Staging.Block(s.pool, s.views[v].buf)
  }

  lemma ReleaseViewKeepsOthers(s: System, k: Token, v: nat)
    requires Inv(s)
    ensures Keeps(s, ReleaseView(s, k).0, v)
  {
    ReleaseViewEffect(s, k);
    if ReleaseView(s, k).1 == Ok {
      var w := Live(s.table)[k].1.id;
      ReturnKeepsBuffers(s.pool, s.views, s.others, w);
    }
  }

  lemma CloseKeepsViews(s: System, k: Token, staged: seq<nat>, teardown: Teardown, v: nat)
    requires Inv(s)
    ensures Keeps(s, Close(s, k, staged, teardown).0, v) && Close(s, k, staged, teardown).0.nextView == s.nextView
    ensures Close(s, k, staged, teardown).0.views == s.views
  {
    LookupRefinesMap(s.table, k, Dataset);
    if k in Live(s.table) && Live(s.table)[k].0 == Dataset {
      CloseEffect(s, k, staged, teardown);
    }
  }

  /** A step keeps the invariant, uses up at most one slot and one view number, and leaves
      view `v` alone if it survives. */
  ghost predicate GoodStep(s: System, s': System, v: nat) {
    && Inv(s') && |s'.table.slots| <= |s.table.slots| + 1 && s.nextView <= s'.nextView <= s.nextView + 1
    && Keeps(s, s', v) && (v < s.nextView && v in s'.views ==> v in s.views)
  }

  lemma ReadIsGood(s: System, k: Token, got: Fetched, v: nat)
    requires Inv(s) && Small(s)
    ensures GoodStep(s, Read(s, k, got).0, v)
  {
    ReadKeeps(s, k, got);
    if Read(s, k, got).1 == Ok {
      ReadEffect(s, k, got);
      ReadGrows(s, Read(s, k, got).0, v);
    }
  }

  lemma ReadGrows(s: System, s': System, v: nat)
    requires Inv(s') && |s'.table.slots| <= |s.table.slots| + 1 && s'.nextView == s.nextView + 1 && s'.pool == s.pool
    requires Fresh(s) && s.nextView in s'.views && s'.views == s.views[s.nextView := s'.views[s.nextView]]
    ensures GoodStep(s, s', v)
  {
  }

  lemma ReleaseIsGood(s: System, k: Token, v: nat)
    requires Inv(s) && Small(s)
    ensures GoodStep(s, ReleaseView(s, k).0, v)
  {
    ReleaseViewKeeps(s, k);
    ReleaseViewEffect(s, k);
    ReleaseViewKeepsOthers(s, k, v);
  }

  lemma CloseIsGood(s: System, k: Token, staged: seq<nat>, teardown: Teardown, v: nat)
    requires Inv(s) && Small(s)
    ensures GoodStep(s, Close(s, k, staged, teardown).0, v)
  {
    CloseKeeps(s, k, staged, teardown);
    CloseKeepsViews(s, k, staged, teardown, v);
  }

  lemma OthersAreGood(s: System, op: Op, v: nat)
    requires Inv(s) && Small(s) && (op.OtherAcquires? || op.OtherReleases? || op.OtherHandle? || op.OtherHandleRelease? || op.OpOpen?)
    ensures GoodStep(s, Apply(s, op), v)
  {
    if op.OpOpen? {
      OpenKeeps(s);
    } else if op.OtherAcquires? || op.OtherReleases? {
      OthersKeep(s, op);
    } else {
      OtherHandlesKeep(s, op);
    }
  }

  lemma StepKeeps(s: System, op: Op, v: nat)
    requires Inv(s) && Small(s)
    ensures GoodStep(s, Apply(s, op), v)
  {
    match op
    case OpRead(k, got) => ReadIsGood(s, k, got, v);
    case OpReleaseView(k) => ReleaseIsGood(s, k, v);
    case OpClose(k, staged, teardown) => CloseIsGood(s, k, staged, teardown, v);
    case _ => OthersAreGood(s, op, v);
  }

  /** Room for `n` more steps. */
  predicate RoomFor(s: System, n: nat) {
    |s.table.slots| + n < TWO_32 && s.nextView + n < TWO_64
  }

  /** The states of a run; a step from a state that breaks the invariant does not exist. */
  ghost function Run(s: System, ops: seq<Op>): (r: System)
    requires Inv(s) && RoomFor(s, |ops|)
    ensures Inv(r)
    decreases |ops|
  {
    if ops == [] then s
    else
      StepKeeps(s, ops[0], 0);
      Run(Apply(s, ops[0]), ops[1..])
  }

  /** The start: nothing open, and the pool's references belong to its other users. */
  function Init(pool: Staging.Pool, others: set<nat>): System {
    System(Handles.Empty(), map[], map[], 0, 0, pool, others)
  }

  lemma InitInv(pool: Staging.Pool, others: set<nat>)
    requires Staging.Valid(pool) && forall b :: b in others ==> Staging.Held(pool, b)
    ensures Inv(Init(pool, others))
  {
    var t: Table<Payload> := Handles.Empty();
    forall k ensures k !in Live(t) { LiveIff(t, k); }
  }

  ghost function RunFrom(pool: Staging.Pool, others: set<nat>, ops: seq<Op>): System
    requires Staging.Valid(pool) && (forall b :: b in others ==> Staging.Held(pool, b)) && |ops| < TWO_32
  {
    InitInv(pool, others);
    Run(Init(pool, others), ops)
  }

  /******* What every run guarantees *******/

  /** In every run of host calls, short enough not to use up the 32-bit slot space:
      `outstanding_views` is the number of live view handles of the dataset; distinct
      live views have distinct buffers with distinct storage; and the dataset of a live
      view is open. */
  lemma ViewsAreCounted(pool: Staging.Pool, others: set<nat>, ops: seq<Op>)
    requires Staging.Valid(pool) && (forall b :: b in others ==> Staging.Held(pool, b)) && |ops| < TWO_32
    ensures var s := RunFrom(pool, others, ops);
      && (forall i :: i in s.records ==> s.records[i].outstanding == |ViewTokens(Live(s.table), s.views, i)|)
      && (forall k :: k in Live(s.table) && Live(s.table)[k].0 == View ==>
            Live(s.table)[k].1.OfView? && Live(s.table)[k].1.id in s.views && s.views[Live(s.table)[k].1.id].token == k)
      && (forall v, w :: v in s.views && w in s.views && v != w ==>
            s.views[v].token != s.views[w].token && s.views[v].buf != s.views[w].buf
            && Staging.Block(s.pool, s.views[v].buf) != Staging.Block(s.pool, s.views[w].buf))
      && (forall v :: v in s.views ==> OpenIn(Live(s.table), s.records, s.views[v].dataset))
  {
    InitInv(pool, others);
    var s := RunFrom(pool, others, ops);
    assert Inv(s);
    forall k | k in Live(s.table) && Live(s.table)[k].0 == View
      ensures Live(s.table)[k].1.OfView? && Live(s.table)[k].1.id in s.views && s.views[Live(s.table)[k].1.id].token == k
    {
      assert BindingSound(Live(s.table)[k], k, s.records, s.views);
    }
    forall v, w | v in s.views && w in s.views && v != w
      ensures s.views[v].token != s.views[w].token && s.views[v].buf != s.views[w].buf
      ensures Staging.Block(s.pool, s.views[v].buf) != Staging.Block(s.pool, s.views[w].buf)
    {
      Staging.HeldBlocksDiffer(s.pool, s.views[v].buf, s.views[w].buf);
    }
  }

  /** The storage behind a view stays the same for as long as the view lives. */
  lemma {:induction false} ViewStorageIsStable(s: System, ops: seq<Op>, v: nat)
    requires Inv(s) && RoomFor(s, |ops|) && v < s.nextView && v in Run(s, ops).views
    ensures v in s.views && Run(s, ops).views[v] == s.views[v]
    ensures Staging.Block(Run(s, ops).pool, s.views[v].buf) == Staging.Block(s.pool, s.views[v].buf)
    ensures Staging.Held(Run(s, ops).pool, s.views[v].buf)
    decreases |ops|
  {
    if ops != [] {
      StepKeeps(s, ops[0], v);
      ViewStorageIsStable(Apply(s, ops[0]), ops[1..], v);
    }
  }

  /******* A released view *******/

  /** What a host call does to the handle table. */
  function TableOp(s: System, op: Op): seq<Handles.Op<Payload>>
    requires Handles.Valid(s.table)
  {
    match op
    case OpOpen => [OpInsert(Dataset, OfDataset(s.nextRecord))]
    case OpRead(k, got) => if Read(s, k, got).1 == Ok then [OpInsert(View, OfView(s.nextView))] else []
    case OpReleaseView(k) => [OpRelease(k, View)]
    case OpClose(k, staged, teardown) =>
      if Lookup(s.table, k, Dataset).0 == Ok && Close(s, k, staged, teardown).0.table != s.table then [OpRelease(k, Dataset)] else []
    case OtherHandle(kind) => if Foreigner(kind) then [OpInsert(kind, Foreign)] else []
    case OtherHandleRelease(k, kind) => if Foreigner(kind) then [OpRelease(k, kind)] else []
    case OtherAcquires(_) => []
    case OtherReleases(_) => []
  }

  lemma StepTable(s: System, op: Op)
    requires Inv(s) && Small(s)
    ensures |TableOp(s, op)| <= 1
    ensures Apply(s, op).table == Handles.Run(s.table, TableOp(s, op))
  {
    match op
    case OpOpen => TableRunsOne(s.table, OpInsert(Dataset, OfDataset(s.nextRecord)));
    case OpRead(k, got) => TableRunsOne(s.table, OpInsert(View, OfView(s.nextView)));
    case OpReleaseView(k) => ReleaseViewTable(s, k);
    case OpClose(k, staged, teardown) => CloseTable(s, k, staged, teardown);
    case OtherHandle(kind) => TableRunsOne(s.table, OpInsert(kind, Foreign));
    case OtherHandleRelease(k, kind) => TableRunsOne(s.table, OpRelease(k, kind));
    case OtherAcquires(_) => OthersKeep(s, op);
    case OtherReleases(_) => OthersKeep(s, op);
  }

  lemma ReleaseViewTable(s: System, k: Token)
    requires Inv(s)
    ensures ReleaseView(s, k).0.table == Handles.Run(s.table, [OpRelease(k, View)])
  {
    TableRunsOne(s.table, OpRelease(k, View));
    LookupRefinesMap(s.table, k, View);
    if k in Live(s.table) && Live(s.table)[k].0 == View {
      assert BindingSound(Live(s.table)[k], k, s.records, s.views);
    }
  }

  lemma TableRunsOne(t: Table<Payload>, op: Handles.Op<Payload>)
    requires Handles.Valid(t)
    ensures Handles.Run(t, [op]) == Handles.Apply(t, op)
  {
    assert [op][1..] == [];
  }

  lemma CloseTable(s: System, k: Token, staged: seq<nat>, teardown: Teardown)
    requires Inv(s)
    ensures Close(s, k, staged, teardown).0.table == Handles.Run(s.table, TableOp(s, OpClose(k, staged, teardown)))
  {
    LookupRefinesMap(s.table, k, Dataset);
    TableRunsOne(s.table, OpRelease(k, Dataset));
    if k in Live(s.table) && Live(s.table)[k].0 == Dataset {
      assert BindingSound(Live(s.table)[k], k, s.records, s.views);
    }
  }

  ghost function TableOps(s: System, ops: seq<Op>): seq<Handles.Op<Payload>>
    requires Inv(s) && RoomFor(s, |ops|)
    decreases |ops|
  {
    if ops == [] then []
    else
      StepKeeps(s, ops[0], 0);
      TableOp(s, ops[0]) + TableOps(Apply(s, ops[0]), ops[1..])
  }

  lemma {:induction false} TableRunSplit(t: Table<Payload>, a: seq<Handles.Op<Payload>>, b: seq<Handles.Op<Payload>>)
    requires Handles.Valid(t)
    ensures Handles.Run(t, a + b) == Handles.Run(Handles.Run(t, a), b)
    decreases |a|
  {
    if a == [] {
      assert a + b == b;
    } else {
      assert (a + b)[1..] == a[1..] + b;
      TableRunSplit(Handles.Apply(t, a[0]), a[1..], b);
    }
  }

  lemma {:induction false} RunTable(s: System, ops: seq<Op>)
    requires Inv(s) && RoomFor(s, |ops|)
    ensures Run(s, ops).table == Handles.Run(s.table, TableOps(s, ops)) && |TableOps(s, ops)| <= |ops|
    decreases |ops|
  {
    if ops != [] {
      StepKeeps(s, ops[0], 0);
      StepTable(s, ops[0]);
      RunTable(Apply(s, ops[0]), ops[1..]);
      TableRunSplit(s.table, TableOp(s, ops[0]), TableOps(Apply(s, ops[0]), ops[1..]));
    }
  }

  lemma {:induction false} ReleasesBounded(t: Table<Payload>, ops: seq<Handles.Op<Payload>>, i: nat)
    requires Handles.Valid(t)
    ensures Releases(t, ops, i) <= |ops|
    decreases |ops|
  {
    if ops != [] { ReleasesBounded(Handles.Apply(t, ops[0]), ops[1..], i); }
  }

  /** Releasing a view frees its buffer once: the buffer has no reference left, and
      whatever happens in the next 2^32 - 3 steps, the same handle is rejected with no
      effect. */
  lemma SecondReleaseIsRejected(s: System, k: Token, ops: seq<Op>)
    requires Inv(s) && k in Live(s.table) && Live(s.table)[k].0 == View
    requires RoomFor(s, 1 + |ops|) && 1 + |ops| < GENERATIONS
    ensures var (s', status) := ReleaseView(s, k);
      && status == Ok
      && Live(s.table)[k].1.OfView? && Live(s.table)[k].1.id in s.views
      && !Staging.Referenced(s'.pool, s.views[Live(s.table)[k].1.id].buf)
    ensures var later := Run(s, [OpReleaseView(k)] + ops);
      k !in Live(later.table) && ReleaseView(later, k) == (later, InvalidHandle)
  {
    FirstReleaseFrees(s, k);
    assert ([OpReleaseView(k)] + ops)[1..] == ops;
    StepKeeps(s, OpReleaseView(k), 0);
    RejectedLater(s.table, ReleaseView(s, k).0, k, ops);
  }

  lemma FirstReleaseFrees(s: System, k: Token)
    requires Inv(s) && k in Live(s.table) && Live(s.table)[k].0 == View
    ensures var (s', status) := ReleaseView(s, k);
      && status == Ok && s'.table == Handles.Apply(s.table, OpRelease(k, View))
      && Live(s.table)[k].1.OfView? && Live(s.table)[k].1.id in s.views
      && !Staging.Referenced(s'.pool, s.views[Live(s.table)[k].1.id].buf)
  {
    ReleaseViewEffect(s, k);
    ReturnKeepsBuffers(s.pool, s.views, s.others, Live(s.table)[k].1.id);
    ReleaseViewTable(s, k);
    TableRunsOne(s.table, OpRelease(k, View));
  }

  lemma RejectedLater(t: Table<Payload>, s: System, k: Token, ops: seq<Op>)
    requires Handles.Valid(t) && k in Live(t) && Live(t)[k].0 == View
    requires s.table == Handles.Apply(t, OpRelease(k, View)) && Inv(s) && RoomFor(s, |ops|) && 1 + |ops| < GENERATIONS
    ensures var later := Run(s, ops); k !in Live(later.table) && ReleaseView(later, k) == (later, InvalidHandle)
  {
    RunTable(s, ops);
    ReleasesBounded(s.table, TableOps(s, ops), UnpackSlot(k));
    RetiredViewTable(t, k, TableOps(s, ops));
  }

  lemma RetiredViewTable(t: Table<Payload>, k: Token, ops: seq<Handles.Op<Payload>>)
    requires Handles.Valid(t) && k in Live(t) && Live(t)[k].0 == View
    requires 1 + Releases(Handles.Apply(t, OpRelease(k, View)), ops, UnpackSlot(k)) < GENERATIONS
    ensures var u := Handles.Run(Handles.Apply(t, OpRelease(k, View)), ops);
      k !in Live(u) && Lookup(u, k, View) == (InvalidHandle, None)
  {
    LookupRefinesMap(t, k, View);
    ReleaseRefinesMap(t, k, View);
    StaleReleaseIsHarmless(t, k, View, ops, View);
  }

  /** A dataset handle that the table accepts leads to a dataset record. */
  lemma DatasetHandle(s: System, k: Token)
    requires Inv(s)
    ensures var (status, payload) := Lookup(s.table, k, Dataset);
      status == Ok ==> payload.Some? && payload.value.OfDataset? && payload.value.id in s.records
  {
    LookupRefinesMap(s.table, k, Dataset);
    if k in Live(s.table) {
      assert BindingSound(Live(s.table)[k], k, s.records, s.views);
    }
  }

  /** A view handle that the table accepts leads to a view record with a held buffer. */
  lemma ViewHandle(s: System, k: Token)
    requires Inv(s)
    ensures var (status, payload) := Lookup(s.table, k, View);
      status == Ok ==>
        && payload.Some? && payload.value.OfView? && payload.value.id in s.views
        && s.views[payload.value.id].dataset in s.records && Staging.Held(s.pool, s.views[payload.value.id].buf)
  {
    LookupRefinesMap(s.table, k, View);
    if k in Live(s.table) {
      assert BindingSound(Live(s.table)[k], k, s.records, s.views);
      if Live(s.table)[k].1.OfView? {
        assert OpenIn(Live(s.table), s.records, s.views[Live(s.table)[k].1.id].dataset);
      }
    }
  }

  /** The outcome of a read, once the dataset is found. */
  lemma ReadUnfolds(s: System, k: Token, got: Fetched, i: nat)
    requires Handles.Valid(s.table) && (got.buf.Some? ==> got.buf.value in s.others)
    requires Lookup(s.table, k, Dataset).0 == Ok ==> Lookup(s.table, k, Dataset).1 == Some(OfDataset(i)) && i in s.records
    ensures var status := Lookup(s.table, k, Dataset).0;
      if status != Ok then Read(s, k, got) == (s, status, 0)
      else if got.status != Ok then Read(s, k, got) == (s, got.status, 0)
      else if got.buf.None? then Read(s, k, got) == (s, BackendFailure, 0)
      else Read(s, k, got) == (WithView(s, i, got.buf.value), Ok, Insert(s.table, View, OfView(s.nextView)).1)
  {
  }

  /******* The coordinator object *******/

  class Coordinator {
    const table: HandleTable<Payload>
    const pool: Staging.StagingPool
    var records: map<nat, DatasetRecord>
    var views: map<nat, ViewRecord>
    var nextRecord: nat
    var nextView: nat
    ghost var others: set<nat>

    ghost function State(): System
      reads this, table, pool
    {
      System(table.State(), records, views, nextRecord, nextView, pool.State(), others)
    }

    constructor (table: HandleTable<Payload>, pool: Staging.StagingPool, ghost others: set<nat>)
      requires table.State() == Handles.Empty() && Staging.Valid(pool.State())
      requires forall b :: b in others ==> Staging.Held(pool.State(), b)
      ensures this.table == table && this.pool == pool
      ensures State() == Init(pool.State(), others) && Inv(State())
    {
      this.table, this.pool := table, pool;
      records, views, nextRecord, nextView, this.others := map[], map[], 0, 0, others;
      InitInv(pool.State(), others);
    }

    method OpenDataset() returns (k: Token)
      requires Inv(State()) && Small(State())
      modifies this, table
      ensures (State(), k) == Open(old(State())) && Inv(State())
    {
      OpenKeeps(State());
      k := table.InsertHandle(Dataset, OfDataset(nextRecord));
      records := records[nextRecord := DatasetRecord(k, 0)];
      nextRecord := nextRecord + 1;
    }

    /** The record that a dataset handle leads to. */
    method FindDataset(k: Token) returns (status: Status, i: nat)
      requires Inv(State())
      ensures status == Lookup(table.State(), k, Dataset).0
      ensures status == Ok ==> Lookup(table.State(), k, Dataset).1 == Some(OfDataset(i)) && i in records
    {
      DatasetHandle(State(), k);
      var payload;
      status, payload := table.LookupHandle(k, Dataset);
      i := if status == Ok then payload.value.id else 0;
    }

    /** Record a view of `buf` and hand out its handle. */
    method MakeView(i: nat, buf: nat) returns (view: Token)
      requires Handles.Valid(table.State()) && i in records
      modifies this, table
      ensures State() == WithView(old(State()), i, buf)
      ensures view == Insert(old(table.State()), View, OfView(old(nextView))).1
    {
      view := table.InsertHandle(View, OfView(nextView));
      views := views[nextView := ViewRecord(view, i, buf)];
      nextView := nextView + 1;
      records := records[i := Bumped(records[i])];
      others := others - {buf};
    }

    /** A buffer that the prefetch queue hands over belongs to the queue until then. */
    method ReadView(k: Token, got: Fetched) returns (status: Status, view: Token)
      requires Inv(State()) && (got.buf.Some? ==> got.buf.value in others)
      modifies this, table
      ensures (State(), status, view) == Read(old(State()), k, got)
    {
      var i;
      status, i := FindDataset(k);
      view := 0;
      ReadUnfolds(State(), k, got, i);
      if status == Ok {
        if got.status != Ok {
          status := got.status;
        } else if got.buf.None? {
          status := BackendFailure;
        } else {
          view := MakeView(i, got.buf.value);
        }
      }
    }

    /** The record that a view handle leads to. */
    method FindView(k: Token) returns (status: Status, v: nat)
      requires Inv(State())
      ensures status == Lookup(table.State(), k, View).0
      ensures status == Ok ==> Lookup(table.State(), k, View).1 == Some(OfView(v)) && v in views
      ensures status == Ok ==> views[v].dataset in records && Staging.Held(pool.State(), views[v].buf)
    {
      ViewHandle(State(), k);
      var payload;
      status, payload := table.LookupHandle(k, View);
      v := if status == Ok then payload.value.id else 0;
    }

    /** Return the buffer, drop the count, retire the handle, free the record. */
    method FreeView(v: nat)
      requires Handles.Valid(table.State()) && Staging.InRange(pool.State())
      requires v in views && views[v].dataset in records && Staging.Held(pool.State(), views[v].buf)
      modifies this, table, pool
      ensures State() == WithoutView(old(State()), v)
    {
      var w := views[v];
      pool.ReleaseBuffer(w.buf);
      records := records[w.dataset := Dropped(records[w.dataset])];
      var released := table.ReleaseHandle(w.token, View);
      views := views - {v};
    }

    method ReleaseViewHandle(k: Token) returns (status: Status)
      requires Inv(State())
      modifies this, table, pool
      ensures (State(), status) == ReleaseView(old(State()), k)
    {
      var v;
      status, v := FindView(k);
      if status == Ok { FreeView(v); }
    }

    method ReturnOne(b: nat)
      requires BuffersSound(pool.State(), views, others) && b in others
      modifies this, pool
      ensures State() == OtherReturns(old(State()), b)
    {
      pool.ReleaseBuffer(b);
      others := others - {b};
    }

    /** Return what the closing dataset's prefetch queues have staged. */
    method ReturnAll(staged: seq<nat>)
      requires BuffersSound(pool.State(), views, others)
      requires forall i :: 0 <= i < |staged| ==> staged[i] in others
      requires forall i, j :: 0 <= i < j < |staged| ==> staged[i] != staged[j]
      modifies this, pool
      ensures State() == ReturnStaged(old(State()), staged)
    {
      ghost var target := ReturnStaged(State(), staged);
      var i := 0;
      while i < |staged|
        invariant 0 <= i <= |staged| && BuffersSound(pool.State(), views, others)
        invariant forall j :: i <= j < |staged| ==> staged[j] in others
        invariant ReturnStaged(State(), staged[i..]) == target
      {
        OtherReturnsKeeps(State(), staged[i]);
        ReturnStagedStep(State(), staged, i);
        ReturnOne(staged[i]);
        i := i + 1;
      }
    }

    /** Return what is staged and retire the dataset's handle. */
    method TearDown(i: nat, staged: seq<nat>)
      requires Handles.Valid(table.State()) && i in records && BuffersSound(pool.State(), views, others)
      requires forall i :: 0 <= i < |staged| ==> staged[i] in others
      requires forall i, j :: 0 <= i < j < |staged| ==> staged[i] != staged[j]
      modifies this, table, pool
      ensures State() == var s := old(State());
                         ReturnStaged(s, staged).(table := Handles.Release(s.table, s.records[i].token, Dataset).0)
    {
      ReturnStagedKeeps(State(), staged);
      ReturnAll(staged);
      var released := table.ReleaseHandle(records[i].token, Dataset);
    }

    method CloseDataset(k: Token, staged: seq<nat>, teardown: Teardown) returns (status: Status)
      requires Inv(State())
      requires forall i :: 0 <= i < |staged| ==> staged[i] in others
      requires forall i, j :: 0 <= i < j < |staged| ==> staged[i] != staged[j]
      modifies this, table, pool
      ensures (State(), status) == Close(old(State()), k, staged, teardown)
    {
      var i;
      status, i := FindDataset(k);
      if status != Ok { return; }
      if records[i].outstanding > 0 { return ViewsOutstanding; }
      TearDown(i, staged);
      status := if teardown.failure.Some? then teardown.failure.value else Ok;
      if !teardown.flushed && status == Ok { status := BackendFailure; }
      if !teardown.closed && status == Ok { status := BackendFailure; }
    }
  }
}
