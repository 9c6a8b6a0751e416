/**
 The staging pool: a reference-counted best-fit allocator over a bounded set of
 slots whose byte storage is committed lazily and grown on demand.

 `Pool` is the pool's state as a value; `TryAcquire`, `Release` and `AddRef` are
 its critical sections as functions of that value.  The class `StagingPool`
 performs them in place and is proved against these functions.
 */
module Staging {
  import opened Common
  import opened Sequences

  const MAX_BUFFER_COUNT: nat := 4096
  const MAX_BUFFER_CAPACITY: nat := 0x4000_0000

  /** A slot header.  `data` names the heap block behind the slot (None is the null
      pointer of a slot whose storage was never committed); `issues` counts hand-outs. */
  datatype Buffer = Buffer(data: Option<nat>, capacity: nat, used: nat, refs: nat, issues: nat)

  const EMPTY_SLOT := Buffer(None, 0, 0, 0, 0)

  /** `free` is the free list; `blocks` is the number of heap blocks allocated so far,
      hence the name of the next one. */
  datatype Pool = Pool(buffers: seq<Buffer>, free: seq<nat>, nominal: nat, ceiling: nat, grow: bool, blocks: nat)

  /******* The pool invariant *******/

  predicate InRange(p: Pool) {
    forall k :: 0 <= k < |p.free| ==> p.free[k] < |p.buffers|
  }

  /** The free list has no duplicates and holds exactly the unreferenced slots. */
  predicate FreeExact(p: Pool) {
    && InRange(p)
    && Distinct(p.free)
    && (forall i :: 0 <= i < |p.buffers| ==> (i in p.free <==> p.buffers[i].refs == 0))
  }

  predicate SortedByCapacity(p: Pool)
    requires InRange(p)
  {
    forall j, k :: 0 <= j < k < |p.free| ==>
      p.buffers[p.free[j]].capacity <= p.buffers[p.free[k]].capacity
  }

  /** Committed slots own distinct blocks of at least the nominal capacity; the
      others have capacity 0. */
  predicate StorageSound(p: Pool) {
    && (forall i :: 0 <= i < |p.buffers| ==> SlotSound(p, p.buffers[i]))
    && (forall i, j :: 0 <= i < j < |p.buffers| && p.buffers[i].data.Some? ==>
          p.buffers[i].data != p.buffers[j].data)
  }

  predicate SlotSound(p: Pool, b: Buffer) {
    if b.data.None? then b.capacity == 0 else b.capacity >= p.nominal && b.data.value < p.blocks
  }

  /** The slot vector never outgrows its reservation, and only a growing pool may
      start below it. */
  predicate Bounded(p: Pool) {
    && 1 <= p.nominal
    && |p.buffers| <= p.ceiling
    && (!p.grow ==> |p.buffers| == p.ceiling)
  }

  predicate Valid(p: Pool) {
    FreeExact(p) && SortedByCapacity(p) && StorageSound(p) && Bounded(p)
  }

  predicate Referenced(p: Pool, i: nat) {
    i < |p.buffers| && p.buffers[i].refs > 0
  }

  /** How many further acquisitions the pool can serve before something is released. */
  function Room(p: Pool): int {
    p.ceiling - |p.buffers| + |p.free|
  }

  /******* Best fit *******/

  predicate Reusable(p: Pool, required: nat, k: nat)
    requires InRange(p) && k < |p.free|
  {
    var b := p.buffers[p.free[k]];
    b.data.Some? && b.capacity >= required
  }

  predicate Uncommitted(p: Pool, k: nat)
    requires InRange(p) && k < |p.free|
  {
    p.buffers[p.free[k]].data.None?
  }

  function FirstReusable(p: Pool, required: nat, from: nat): (r: nat)
    requires InRange(p) && from <= |p.free|
    ensures from <= r <= |p.free|
    ensures r < |p.free| ==> Reusable(p, required, r)
    ensures forall k :: from <= k < r ==> !Reusable(p, required, k)
    decreases |p.free| - from
  {
    if from == |p.free| || Reusable(p, required, from) then from
    else FirstReusable(p, required, from + 1)
  }

  function FirstUncommitted(p: Pool, from: nat): (r: nat)
    requires InRange(p) && from <= |p.free|
    ensures from <= r <= |p.free|
    ensures r < |p.free| ==> Uncommitted(p, r)
    ensures forall k :: from <= k < r ==> !Uncommitted(p, k)
    decreases |p.free| - from
  {
    if from == |p.free| || Uncommitted(p, from) then from
    else FirstUncommitted(p, from + 1)
  }

  /** Position in the free list of the slot to hand out, or `|p.free|` when the list is empty. */
  function BestFit(p: Pool, required: nat): (r: nat)
    requires InRange(p)
    ensures r <= |p.free|
    ensures r == |p.free| <==> p.free == []
  {
    var a := FirstReusable(p, required, 0);
    var b := FirstUncommitted(p, 0);
    if a < |p.free| then a
    else if b < |p.free| then b
    else if |p.free| > 0 then |p.free| - 1
    else |p.free|
  }

  /** First match in the capacity-sorted list is a minimum-capacity fit that needs no
      allocation; failing that an uncommitted slot is used; failing that the largest
      free buffer is the one that grows. */
  lemma BestFitPolicy(p: Pool, required: nat)
    requires Valid(p) && p.free != []
    ensures var r := BestFit(p, required);
      if exists k: nat :: k < |p.free| && Reusable(p, required, k) then
        && Reusable(p, required, r)
        && Commit(p, p.free[r], required) == p
        && (forall k: nat :: k < |p.free| && Reusable(p, required, k) ==>
              p.buffers[p.free[r]].capacity <= p.buffers[p.free[k]].capacity)
      else if exists k: nat :: k < |p.free| && Uncommitted(p, k) then
        Uncommitted(p, r)
      else
        forall k: nat :: k < |p.free| ==>
          p.buffers[p.free[k]].capacity <= p.buffers[p.free[r]].capacity < required
  {
    var r := BestFit(p, required);
    if k: nat :| k < |p.free| && Reusable(p, required, k) {
      assert r == FirstReusable(p, required, 0) <= k;
      assert SlotSound(p, p.buffers[p.free[r]]);
      assert p.buffers[p.free[r]].data.Some?;
    } else {
      forall k: nat | k < |p.free| && !Uncommitted(p, k)
        ensures p.buffers[p.free[k]].capacity < required
      {
        assert !Reusable(p, required, k);
      }
    }
  }

  /******* Critical sections *******/

  /** Give slot `i` storage for `required` bytes, allocating a new block only when the
      present one is missing or too small. */
  function Commit(p: Pool, i: nat, required: nat): Pool
    requires i < |p.buffers|
  {
    var b := p.buffers[i];
    var target := if required > p.nominal then required else p.nominal;
    if b.data.Some? && b.capacity >= target then p
    else p.(buffers := p.buffers[i := b.(data := Some(p.blocks), capacity := target)], blocks := p.blocks + 1)
  }

  /** Unlink position `k` of the free list and reference its slot. */
  function Unlink(p: Pool, k: nat): Pool
    requires InRange(p) && k < |p.free|
  {
    var i := p.free[k];
    var b := p.buffers[i];
    p.(buffers := p.buffers[i := b.(refs := 1, issues := b.issues + 1)], free := RemoveAt(p.free, k))
  }

  function Issue(p: Pool, required: nat): (Pool, nat)
    requires InRange(p) && p.free != []
  {
    var k := BestFit(p, required);
    (Unlink(Commit(p, p.free[k], required), k), p.free[k])
  }

  /** A fresh lazy slot, put on the free list. */
  function Append(p: Pool): Pool {
    p.(buffers := p.buffers + [EMPTY_SLOT], free := p.free + [|p.buffers|])
  }

  /** One pass of `acquire` under the lock: the new state and the slot handed out, or
      None when the caller has to wait. */
  function TryAcquire(p: Pool, required: nat): (Pool, Option<nat>)
    requires InRange(p)
  {
    if p.free != [] then
      var (q, i) := Issue(p, required);
      (q, Some(i))
    else if p.grow && |p.buffers| < p.ceiling then
      var (q, i) := Issue(Append(p), required);
      (q, Some(i))
    else
      (p, None)
  }

  /** First position of the free list whose capacity is at least `capacity`. */
  function LowerBound(p: Pool, capacity: nat, from: nat): (r: nat)
    requires InRange(p) && from <= |p.free|
    ensures from <= r <= |p.free|
    ensures r < |p.free| ==> capacity <= p.buffers[p.free[r]].capacity
    ensures forall k :: from <= k < r ==> p.buffers[p.free[k]].capacity < capacity
    decreases |p.free| - from
  {
    if from == |p.free| || capacity <= p.buffers[p.free[from]].capacity then from
    else LowerBound(p, capacity, from + 1)
  }

  /** Drop one reference; the last one puts the slot back at its sorted place. */
  function Release(p: Pool, i: nat): Pool
    requires InRange(p) && Referenced(p, i)
  {
    var b := p.buffers[i];
    if b.refs > 1 then
      p.(buffers := p.buffers[i := b.(refs := b.refs - 1)])
    else
      var q := p.(buffers := p.buffers[i := b.(refs := 0, used := 0)]);
      var at := LowerBound(q, b.capacity, 0);
      q.(free := InsertAt(q.free, at, i))
  }

  function AddRef(p: Pool, i: nat): Pool
    requires Referenced(p, i)
  {
    var b := p.buffers[i];
    p.(buffers := p.buffers[i := b.(refs := b.refs + 1)])
  }

  /** The holder of a buffer records how many bytes it put there. */
  function SetUsed(p: Pool, i: nat, bytes: nat): Pool
    requires Referenced(p, i)
  {
    p.(buffers := p.buffers[i := p.buffers[i].(used := bytes)])
  }

  /******* Each critical section keeps the invariant *******/

  /** What one hand-out does: a previously unreferenced slot comes back with one
      reference and enough storage, and no other slot changes. */
  ghost predicate Issued(p: Pool, q: Pool, i: nat, required: nat) {
    && |p.buffers| <= |q.buffers|
    && i < |q.buffers|
    && !Referenced(p, i)
    && q.buffers[i].refs == 1
    && q.buffers[i].capacity >= required
    && q.buffers[i].data.Some?
    && (forall j :: 0 <= j < |p.buffers| && j != i ==> q.buffers[j] == p.buffers[j])
    && (|q.buffers| == |p.buffers| || i == |p.buffers| == |q.buffers| - 1)
    && q.nominal == p.nominal && q.ceiling == p.ceiling && q.grow == p.grow
  }

  lemma CommitKeepsStorage(p: Pool, i: nat, required: nat)
    requires StorageSound(p) && Bounded(p) && i < |p.buffers|
    ensures var q := Commit(p, i, required);
      && StorageSound(q) && Bounded(q)
      && q.buffers[i].data.Some? && q.buffers[i].capacity >= required
      && q.buffers[i].refs == p.buffers[i].refs
  {
    var q := Commit(p, i, required);
    assert SlotSound(p, p.buffers[i]);
    forall j | 0 <= j < |q.buffers|
      ensures SlotSound(q, q.buffers[j])
    {
      assert SlotSound(p, p.buffers[j]);
    }
    forall j, k | 0 <= j < k < |q.buffers| && q.buffers[j].data.Some?
      ensures q.buffers[j].data != q.buffers[k].data
    {
      assert SlotSound(p, p.buffers[j]) && SlotSound(p, p.buffers[k]);
    }
  }

  lemma UnlinkKeepsFreeExact(p: Pool, k: nat)
    requires FreeExact(p) && k < |p.free|
    ensures FreeExact(Unlink(p, k))
  {
    RemoveAtMembers(p.free, k);
    assert p.free[k] in p.free;
  }

  /** Unlinking position `k` of a list that is sorted but for the slot at `k`. */
  lemma UnlinkKeepsOrder(p: Pool, c: Pool, k: nat)
    requires FreeExact(p) && SortedByCapacity(p) && k < |p.free|
    requires c.free == p.free && |c.buffers| == |p.buffers|
    requires forall j :: 0 <= j < |p.buffers| && j != p.free[k] ==> c.buffers[j] == p.buffers[j]
    requires InRange(c) && InRange(Unlink(c, k))
    ensures SortedByCapacity(Unlink(c, k))
  {
    var q := Unlink(c, k);
    forall x, y | 0 <= x < y < |q.free|
      ensures q.buffers[q.free[x]].capacity <= q.buffers[q.free[y]].capacity
    {
      var x' := if x < k then x else x + 1;
      var y' := if y < k then y else y + 1;
      assert p.buffers[p.free[x']].capacity <= p.buffers[p.free[y']].capacity;
    }
  }

  lemma UnlinkKeepsStorage(p: Pool, k: nat)
    requires StorageSound(p) && InRange(p) && k < |p.free|
    ensures StorageSound(Unlink(p, k))
  {
    var q := Unlink(p, k);
    forall j | 0 <= j < |q.buffers| ensures SlotSound(q, q.buffers[j]) {
      assert SlotSound(p, p.buffers[j]);
    }
  }

  lemma IssueKeepsValid(p: Pool, required: nat)
    requires Valid(p) && p.free != []
    ensures var (q, i) := Issue(p, required); Valid(q)
  {
    var k := BestFit(p, required);
    var c := Commit(p, p.free[k], required);
    CommitKeepsStorage(p, p.free[k], required);
    assert FreeExact(c);
    UnlinkKeepsFreeExact(c, k);
    UnlinkKeepsOrder(p, c, k);
    UnlinkKeepsStorage(c, k);
  }

  lemma IssueFits(p: Pool, required: nat)
    requires Valid(p) && p.free != []
    ensures var (q, i) := Issue(p, required); Issued(p, q, i, required) && Room(q) == Room(p) - 1
  {
    var k := BestFit(p, required);
    CommitKeepsStorage(p, p.free[k], required);
    assert p.free[k] in p.free;
  }

  lemma AppendKeepsValid(p: Pool)
    requires Valid(p) && p.free == [] && p.grow && |p.buffers| < p.ceiling
    ensures Valid(Append(p)) && Room(Append(p)) == Room(p)
  {
    var q := Append(p);
    forall j | 0 <= j < |q.buffers| ensures SlotSound(q, q.buffers[j]) {
      if j < |p.buffers| { assert SlotSound(p, p.buffers[j]); }
    }
  }

  /** `acquire` hands out a fitting slot, and refuses exactly at saturation: the slot
      count has reached the ceiling and every slot is referenced. */
  lemma TryAcquireCorrect(p: Pool, required: nat)
    requires Valid(p)
    ensures var (q, r) := TryAcquire(p, required);
      && Valid(q)
      && (r.None? <==> |p.buffers| == p.ceiling && forall i :: 0 <= i < |p.buffers| ==> p.buffers[i].refs > 0)
      && (r.None? <==> Room(p) == 0)
      && (r.None? ==> q == p)
      && (r.Some? ==> Issued(p, q, r.value, required) && Room(q) == Room(p) - 1)
  {
    if p.free != [] {
      IssueKeepsValid(p, required);
      IssueFits(p, required);
      assert p.buffers[p.free[0]].refs == 0 by { assert p.free[0] in p.free; }
    } else {
      assert forall i :: 0 <= i < |p.buffers| ==> i !in p.free && p.buffers[i].refs > 0;
      if p.grow && |p.buffers| < p.ceiling {
        AppendKeepsValid(p);
        IssueKeepsValid(Append(p), required);
        IssueFits(Append(p), required);
      }
    }
  }

  lemma ReleaseCorrect(p: Pool, i: nat)
    requires Valid(p) && Referenced(p, i)
    ensures var q := Release(p, i);
      && Valid(q) && |q.buffers| == |p.buffers|
      && q.buffers[i].refs == p.buffers[i].refs - 1
      && q.buffers[i].data == p.buffers[i].data && q.buffers[i].capacity == p.buffers[i].capacity
      && q.buffers[i].issues == p.buffers[i].issues
      && q.buffers[i].used == (if p.buffers[i].refs == 1 then 0 else p.buffers[i].used)
      && (forall j :: 0 <= j < |p.buffers| && j != i ==> q.buffers[j] == p.buffers[j])
      && Room(q) == Room(p) + (if p.buffers[i].refs == 1 then 1 else 0)
      && q.nominal == p.nominal && q.ceiling == p.ceiling && q.grow == p.grow
  {
    var q := Release(p, i);
    assert i !in p.free;
    ReleaseKeepsFreeExact(p, i);
    assert StorageSound(q) by {
      forall j | 0 <= j < |q.buffers| ensures SlotSound(q, q.buffers[j]) {
        assert SlotSound(p, p.buffers[j]);
      }
    }
    ReleaseKeepsOrder(p, i);
  }

  /** An additional reference is undone by the next release, and nothing else happens. */
  lemma AddRefThenRelease(p: Pool, i: nat)
    requires Valid(p) && Referenced(p, i)
    ensures InRange(AddRef(p, i)) && Release(AddRef(p, i), i) == p
  {
    var b := p.buffers[i];
    assert p.buffers[i := b.(refs := b.refs + 1)][i := b] == p.buffers;
  }

  /** The storage of the slot that `acquire` hands out is its own, unchanged, when that is
      large enough; otherwise a block that did not exist before, of the required size or the
      nominal one, whichever is larger. */
  lemma StorageOfIssue(p: Pool, required: nat)
    requires Valid(p) && TryAcquire(p, required).1.Some?
    ensures var (q, r) := TryAcquire(p, required);
      && r.value < |q.buffers|
      && var b := q.buffers[r.value];
         var was := if r.value < |p.buffers| then p.buffers[r.value] else EMPTY_SLOT;
         b.refs == 1 && b.issues == was.issues + 1
         && if was.data.Some? && was.capacity >= required then
              b.data == was.data && b.capacity == was.capacity && q.blocks == p.blocks
            else
              && b.data == Some(p.blocks) && q.blocks == p.blocks + 1
              && b.capacity == (if required > p.nominal then required else p.nominal)
              && forall j :: 0 <= j < |p.buffers| ==> p.buffers[j].data != Some(p.blocks)
  {
    forall j | 0 <= j < |p.buffers| ensures SlotSound(p, p.buffers[j]) {}
    if p.free == [] {
      AppendKeepsValid(p);
      IssuedSlot(Append(p), required);
    } else {
      IssuedSlot(p, required);
    }
  }

  lemma IssuedSlot(p: Pool, required: nat)
    requires Valid(p) && p.free != []
    ensures var (q, i) := Issue(p, required);
      && i < |p.buffers| == |q.buffers|
      && var was, b := p.buffers[i], q.buffers[i];
         b.refs == 1 && b.issues == was.issues + 1
         && if was.data.Some? && was.capacity >= required then
              b.data == was.data && b.capacity == was.capacity && q.blocks == p.blocks
            else
              b.data == Some(p.blocks) && q.blocks == p.blocks + 1
              && b.capacity == (if required > p.nominal then required else p.nominal)
  {
    assert SlotSound(p, p.buffers[p.free[BestFit(p, required)]]);
  }

  lemma ReleaseKeepsFreeExact(p: Pool, i: nat)
    requires FreeExact(p) && Referenced(p, i)
    ensures FreeExact(Release(p, i))
  {
    if p.buffers[i].refs == 1 {
      var m := p.(buffers := p.buffers[i := p.buffers[i].(refs := 0, used := 0)]);
      InsertAtMembers(p.free, LowerBound(m, p.buffers[i].capacity, 0), i);
    }
  }

  lemma ReleaseKeepsOrder(p: Pool, i: nat)
    requires FreeExact(p) && SortedByCapacity(p) && Referenced(p, i)
    requires InRange(Release(p, i))
    ensures SortedByCapacity(Release(p, i))
  {
    if p.buffers[i].refs == 1 {
      var m := p.(buffers := p.buffers[i := p.buffers[i].(refs := 0, used := 0)]);
      assert SortedByCapacity(m);
      SortedInsert(m, i);
    }
  }

  lemma SortedInsert(m: Pool, i: nat)
    requires InRange(m) && SortedByCapacity(m) && i < |m.buffers|
    ensures var q := m.(free := InsertAt(m.free, LowerBound(m, m.buffers[i].capacity, 0), i));
      InRange(q) && SortedByCapacity(q)
  {
    var at := LowerBound(m, m.buffers[i].capacity, 0);
    if at < |m.free| {
      assert forall k :: at <= k < |m.free| ==> m.buffers[m.free[at]].capacity <= m.buffers[m.free[k]].capacity;
    }
    InsertedIsSorted(m, i, at);
  }

  lemma InsertedIsSorted(m: Pool, i: nat, at: nat)
    requires InRange(m) && SortedByCapacity(m) && i < |m.buffers| && at <= |m.free|
    requires forall k :: 0 <= k < at ==> m.buffers[m.free[k]].capacity <= m.buffers[i].capacity
    requires forall k :: at <= k < |m.free| ==> m.buffers[i].capacity <= m.buffers[m.free[k]].capacity
    ensures var q := m.(free := InsertAt(m.free, at, i)); InRange(q) && SortedByCapacity(q)
  {
    var q := m.(free := InsertAt(m.free, at, i));
    assert InRange(q);
    forall x, y | 0 <= x < y < |q.free|
      ensures q.buffers[q.free[x]].capacity <= q.buffers[q.free[y]].capacity
    {
      if x != at && y != at {
        var x' := if x < at then x else x - 1;
        var y' := if y < at then y else y - 1;
        assert m.buffers[m.free[x']].capacity <= m.buffers[m.free[y']].capacity;
      }
    }
  }

  /** Adding a reference adds exactly one, recording used bytes records them, and neither
      changes anything else. */
  lemma HolderStepsKeepValid(p: Pool, i: nat, bytes: nat)
    requires Valid(p) && Referenced(p, i)
    ensures Valid(AddRef(p, i)) && Valid(SetUsed(p, i, bytes))
    ensures var b, q := p.buffers[i], AddRef(p, i);
      q.buffers[i] == Buffer(b.data, b.capacity, b.used, b.refs + 1, b.issues)
      && |q.buffers| == |p.buffers| && q.free == p.free && forall j :: 0 <= j < |p.buffers| && j != i ==> q.buffers[j] == p.buffers[j]
    ensures var b, q := p.buffers[i], SetUsed(p, i, bytes);
      q.buffers[i] == Buffer(b.data, b.capacity, bytes, b.refs, b.issues)
      && |q.buffers| == |p.buffers| && q.free == p.free && forall j :: 0 <= j < |p.buffers| && j != i ==> q.buffers[j] == p.buffers[j]
  {
    var q := AddRef(p, i);
    var r := SetUsed(p, i, bytes);
    forall j | 0 <= j < |p.buffers| ensures SlotSound(q, q.buffers[j]) && SlotSound(r, r.buffers[j]) {
      assert SlotSound(p, p.buffers[j]);
    }
  }

  /******* What the holder of a buffer may rely on *******/

  function Block(p: Pool, i: nat): Option<nat> {
    if i < |p.buffers| then p.buffers[i].data else None
  }

  /** Slot `i` has storage and exactly one reference. */
  predicate Held(p: Pool, i: nat) {
    i < |p.buffers| && p.buffers[i].refs == 1 && p.buffers[i].data.Some?
  }

  /** What a hand-out or a release of slot `i` leaves alone. */
  ghost predicate OthersKept(p: Pool, q: Pool, i: nat) {
    forall j :: Held(p, j) && j != i ==> Held(q, j) && Block(q, j) == Block(p, j)
  }

  lemma AcquireFrame(p: Pool, n: nat)
    requires Valid(p)
    ensures var (q, r) := TryAcquire(p, n);
      && Valid(q)
      && (r.None? ==> q == p)
      && (r.Some? ==> !Held(p, r.value) && Held(q, r.value) && OthersKept(p, q, r.value))
      && (r.Some? ==> forall j :: Referenced(q, j) ==> j == r.value || Referenced(p, j))
  {
    TryAcquireCorrect(p, n);
  }

  lemma ReleaseFrame(p: Pool, i: nat)
    requires Valid(p) && Held(p, i)
    ensures Valid(Release(p, i)) && OthersKept(p, Release(p, i), i)
    ensures forall j :: Referenced(Release(p, i), j) ==> j != i && Referenced(p, j)
  {
    ReleaseCorrect(p, i);
  }

  /** Two held slots never share a block. */
  lemma HeldBlocksDiffer(p: Pool, i: nat, j: nat)
    requires Valid(p) && Held(p, i) && Held(p, j) && i != j
    ensures Block(p, i) != Block(p, j)
  {
    assert StorageSound(p);
  }

  /******* Whole runs *******/

  /** One operation of some thread on the shared pool. */
  datatype Op = OpAcquire(required: nat) | OpRelease(slot: nat) | OpAddRef(slot: nat) | OpSetUsed(slot: nat, bytes: nat)

  /** The holder of no reference may not release, share or fill; such an operation
      violates the source's assertions and is not taken. */
  function Apply(p: Pool, op: Op): Pool
    requires InRange(p)
  {
    match op
    case OpAcquire(n) => TryAcquire(p, n).0
    case OpRelease(i) => if Referenced(p, i) then Release(p, i) else p
    case OpAddRef(i) => if Referenced(p, i) then AddRef(p, i) else p
    case OpSetUsed(i, n) => if Referenced(p, i) then SetUsed(p, i, n) else p
  }

  lemma ApplyKeepsValid(p: Pool, op: Op)
    requires Valid(p)
    ensures Valid(Apply(p, op))
    ensures |p.buffers| <= |Apply(p, op).buffers|
    ensures Apply(p, op).ceiling == p.ceiling && Apply(p, op).grow == p.grow && Apply(p, op).nominal == p.nominal
  {
    match op
    case OpAcquire(n) => TryAcquireCorrect(p, n);
    case OpRelease(i) => if Referenced(p, i) { ReleaseCorrect(p, i); }
    case OpAddRef(i) => if Referenced(p, i) { HolderStepsKeepValid(p, i, 0); }
    case OpSetUsed(i, n) => if Referenced(p, i) { HolderStepsKeepValid(p, i, n); }
  }

  /** Every run of operations keeps the pool valid and its limits fixed, and slots are
      never removed. */
  function Run(p: Pool, ops: seq<Op>): (q: Pool)
    requires Valid(p)
    ensures Valid(q)
    ensures |p.buffers| <= |q.buffers| <= q.ceiling
    ensures q.ceiling == p.ceiling && q.grow == p.grow && q.nominal == p.nominal
    decreases |ops|
  {
    if ops == [] then p
    else
      ApplyKeepsValid(p, ops[0]);
      Run(Apply(p, ops[0]), ops[1..])
  }

  /** Slot `i` keeps at least one reference throughout the run. */
  ghost predicate HeldThroughout(p: Pool, ops: seq<Op>, i: nat)
    requires Valid(p)
    decreases |ops|
  {
    && Referenced(p, i)
    && (ops != [] ==>
          && Valid(Apply(p, ops[0]))
          && HeldThroughout(Apply(p, ops[0]), ops[1..], i))
  }

  lemma HeldAcrossOne(p: Pool, op: Op, i: nat)
    requires Valid(p) && Referenced(p, i)
    ensures var q := Apply(p, op);
      && i < |q.buffers|
      && q.buffers[i].data == p.buffers[i].data
      && q.buffers[i].capacity == p.buffers[i].capacity
      && q.buffers[i].issues == p.buffers[i].issues
  {
    match op
    case OpAcquire(n) => TryAcquireCorrect(p, n);
    case OpRelease(j) => if Referenced(p, j) { ReleaseCorrect(p, j); }
    case OpAddRef(_) =>
    case OpSetUsed(_, _) =>
  }

  /** The storage behind a referenced buffer is never replaced and the buffer is never
      reissued, whatever other threads do in the meantime. */
  lemma {:induction false} HeldStorageIsStable(p: Pool, ops: seq<Op>, i: nat)
    requires Valid(p) && HeldThroughout(p, ops, i)
    ensures var q := Run(p, ops);
      && i < |q.buffers|
      && q.buffers[i].data == p.buffers[i].data
      && q.buffers[i].capacity == p.buffers[i].capacity
      && q.buffers[i].issues == p.buffers[i].issues
    decreases |ops|
  {
    if ops != [] {
      HeldAcrossOne(p, ops[0], i);
      HeldStorageIsStable(Apply(p, ops[0]), ops[1..], i);
    }
  }

  /******* acquire with its waits *******/

  /** `acquire` under interference.  `wakes` lists what other threads do during each
      wait that ends in a wakeup, `last` what they do during the wait that expires;
      after that one only the free list is checked again. */
  function AcquireWaiting(p: Pool, required: nat, wakes: seq<seq<Op>>, last: seq<Op>): (Pool, Option<nat>)
    requires Valid(p)
    decreases |wakes|
  {
    var (q, r) := TryAcquire(p, required);
    if r.Some? then (q, r)
    else if wakes != [] then AcquireWaiting(Run(p, wakes[0]), required, wakes[1..], last)
    else
      var e := Run(p, last);
      if e.free != [] then var (q, i) := Issue(e, required); (q, Some(i))
      else (e, None)
  }

  /** Backpressure is reported only at saturation, however the waits went; otherwise
      the caller gets a buffer that fits. */
  lemma {:induction false} BackpressureOnlyAtSaturation(p: Pool, required: nat, wakes: seq<seq<Op>>, last: seq<Op>)
    requires Valid(p)
    ensures var (q, r) := AcquireWaiting(p, required, wakes, last);
      && Valid(q)
      && (r.None? ==> |q.buffers| == q.ceiling == p.ceiling && forall i :: 0 <= i < |q.buffers| ==> q.buffers[i].refs > 0)
      && (r.Some? ==> r.value < |q.buffers| && q.buffers[r.value].refs == 1
                      && q.buffers[r.value].data.Some? && q.buffers[r.value].capacity >= required)
    decreases |wakes|
  {
    TryAcquireCorrect(p, required);
    if TryAcquire(p, required).1.None? {
      if wakes != [] {
        BackpressureOnlyAtSaturation(Run(p, wakes[0]), required, wakes[1..], last);
      } else {
        var e := Run(p, last);
        if e.free != [] {
          IssueKeepsValid(e, required);
          IssueFits(e, required);
        } else {
          assert forall i :: 0 <= i < |e.buffers| ==> i !in e.free && e.buffers[i].refs > 0;
        }
      }
    }
  }

  /** A pool that has handed out nothing yet. */
  lemma FreshPoolIsValid(p: Pool, count: nat)
    requires p.buffers == seq(count, _ => EMPTY_SLOT) && p.free == seq(count, j => j)
    requires p.nominal >= 1 && count <= p.ceiling && (!p.grow ==> count == p.ceiling)
    ensures Valid(p) && Room(p) == p.ceiling
  {
    forall j | 0 <= j < count ensures p.buffers[j] == EMPTY_SLOT && j in p.free {
      assert p.free[j] == j;
    }
  }

  /******* The pool object *******/

  class StagingPool {
    var buffers: seq<Buffer>
    var freeList: seq<nat>
    var blocks: nat
    const nominal: nat
    const ceiling: nat
    const grow: bool

    function State(): Pool
      reads this
    {
      Pool(buffers, freeList, nominal, ceiling, grow, blocks)
    }

    constructor (count: nat, capacity: nat, maxCount: nat, grow: bool)
      requires 1 <= count <= maxCount <= MAX_BUFFER_COUNT
      requires 1 <= capacity <= MAX_BUFFER_CAPACITY
      ensures Valid(State())
      ensures State().nominal == capacity && State().grow == grow
      ensures State().ceiling == if grow then maxCount else count
      ensures |buffers| == count && forall i :: 0 <= i < count ==> buffers[i] == EMPTY_SLOT
      ensures Room(State()) == State().ceiling
    {
      nominal, ceiling, this.grow, blocks := capacity, if grow then maxCount else count, grow, 0;
      buffers := seq(count, _ => EMPTY_SLOT);
      freeList := [];
      new;
      for i := 0 to count
        invariant buffers == seq(count, _ => EMPTY_SLOT)
        invariant freeList == seq(i, j => j)
        invariant blocks == 0
      {
        freeList := freeList + [i];
      }
      FreshPoolIsValid(State(), count);
    }

    method FindBestFit(required: nat) returns (r: nat)
      requires InRange(State())
      ensures r == BestFit(State(), required)
    {
      var i := 0;
      while i < |freeList|
        invariant i <= |freeList|
        invariant FirstReusable(State(), required, 0) == FirstReusable(State(), required, i)
      {
        var b := buffers[freeList[i]];
        if b.data.Some? && b.capacity >= required { return i; }
        i := i + 1;
      }
      i := 0;
      while i < |freeList|
        invariant i <= |freeList|
        invariant FirstUncommitted(State(), 0) == FirstUncommitted(State(), i)
      {
        if buffers[freeList[i]].data.None? { return i; }
        i := i + 1;
      }
      return if |freeList| > 0 then |freeList| - 1 else |freeList|;
    }

    method EnsureStorage(i: nat, required: nat)
      requires i < |buffers|
      modifies this
      ensures State() == Commit(old(State()), i, required)
    {
      var target := if required > nominal then required else nominal;
      if buffers[i].data.Some? && buffers[i].capacity >= target { return; }
      buffers := buffers[i := buffers[i].(data := Some(blocks), capacity := target)];
      blocks := blocks + 1;
    }

    method RemoveFromFreeList(k: nat) returns (i: nat)
      requires InRange(State()) && k < |freeList|
      modifies this
      ensures State() == Unlink(old(State()), k)
      ensures i == old(freeList[k])
    {
      i := freeList[k];
      freeList := RemoveAt(freeList, k);
      buffers := buffers[i := buffers[i].(refs := 1, issues := buffers[i].issues + 1)];
    }

    /** The lock is free during a wait, and other threads then use the pool. */
    method Interfere(ops: seq<Op>)
      requires Valid(State())
      modifies this
      ensures State() == Run(old(State()), ops)
    {
      var q := Run(State(), ops);
      buffers, freeList, blocks := q.buffers, q.free, q.blocks;
    }

    /** Hand out the best-fitting free slot, if there is one. */
    method TakeFree(required: nat) returns (r: Option<nat>)
      requires InRange(State())
      modifies this
      ensures if old(freeList) == [] then r == None && State() == old(State())
              else r == Some(Issue(old(State()), required).1) && State() == Issue(old(State()), required).0
    {
      var k := FindBestFit(required);
      if k < |freeList| {
        EnsureStorage(freeList[k], required);
        var i := RemoveFromFreeList(k);
        r := Some(i);
      } else {
        r := None;
      }
    }

    /** One look at the pool: a free slot, or the last chance to grow. */
    method TryOnce(required: nat) returns (r: Option<nat>)
      requires Valid(State())
      modifies this
      ensures (State(), r) == TryAcquire(old(State()), required)
    {
      r := TakeFree(required);
      if r.None? && grow && |buffers| < ceiling {
        AppendKeepsValid(State());
        buffers := buffers + [EMPTY_SLOT];
        freeList := freeList + [|buffers| - 1];
        r := TakeFree(required);
      }
    }

    /** `target` is fixed before the loop, so each round only has to show that the rest
        of the wait leads to the same outcome. */
    method Acquire(required: nat, wakes: seq<seq<Op>>, last: seq<Op>) returns (r: Option<nat>)
      requires Valid(State())
      modifies this
      ensures (State(), r) == AcquireWaiting(old(State()), required, wakes, last)
    {
      var w := 0;
      ghost var target := AcquireWaiting(State(), required, wakes, last);
      while true
        invariant w <= |wakes|
        invariant Valid(State())
        invariant AcquireWaiting(State(), required, wakes[w..], last) == target
        decreases |wakes| - w
      {
        TryAcquireCorrect(State(), required);
        r := TryOnce(required);
        if r.Some? { return; }
        if w == |wakes| {
          Interfere(last);
          r := TakeFree(required);
          return;
        }
        Interfere(wakes[w]);
        w := w + 1;
      }
    }

    method ReleaseBuffer(i: nat)
      requires InRange(State()) && Referenced(State(), i)
      modifies this
      ensures State() == Release(old(State()), i)
    {
      var b := buffers[i];
      buffers := buffers[i := b.(refs := b.refs - 1)];
      if b.refs == 1 {
        buffers := buffers[i := b.(refs := 0, used := 0)];
        var at := LowerBound(State(), b.capacity, 0);
        freeList := InsertAt(freeList, at, i);
      }
    }

    method AddReference(i: nat)
      requires Referenced(State(), i)
      modifies this
      ensures State() == AddRef(old(State()), i)
    {
      buffers := buffers[i := buffers[i].(refs := buffers[i].refs + 1)];
    }
  }
}
