/**
 The handle table: a slab of generation-stamped slots behind the opaque handles of
 the C interface.  It has to behave as a plain map from token to (kind, payload) and
 to keep rejecting retired tokens, up to the wrap-around of a 32-bit generation.
 */
module Handles {
  import opened Common
  import opened Sequences

  datatype Kind = Core | Dataset | Io | View

  type Token = nat

  const MIN_GENERATION: nat := 1

  /** Generations run through 1 .. 2^32 - 1 and then start again. */
  const GENERATIONS: nat := TWO_32 - 1

  datatype Slot<+P> = Slot(generation: nat, live: bool, kind: Kind, payload: Option<P>)

  datatype Table<+P> = Table(slots: seq<Slot<P>>, free: seq<nat>)

  /******* Tokens *******/

  function Pack(slot: nat, generation: nat): Token {
    slot * TWO_32 + generation
  }

  function UnpackSlot(t: Token): nat { t / TWO_32 }

  function UnpackGeneration(t: Token): nat { t % TWO_32 }

  /** Packing is injective on 32-bit halves and misses only the null token. */
  lemma PackRoundTrip(slot: nat, generation: nat)
    requires generation < TWO_32
    ensures UnpackSlot(Pack(slot, generation)) == slot
    ensures UnpackGeneration(Pack(slot, generation)) == generation
    ensures Pack(slot, generation) == 0 <==> slot == 0 && generation == 0
  {
  }

  lemma UnpackRoundTrip(t: Token)
    ensures Pack(UnpackSlot(t), UnpackGeneration(t)) == t
    ensures UnpackGeneration(t) < TWO_32
  {
  }

  /** The shift-and-or expressions on 64-bit words are inverse to each other too. */
  lemma PackBitsRoundTrip(slot: bv64, generation: bv64)
    requires slot <= 0xFFFF_FFFF && generation <= 0xFFFF_FFFF
    ensures ((slot << 32) | generation) >> 32 == slot
    ensures ((slot << 32) | generation) & 0xFFFF_FFFF == generation
  {
  }

  /******* The same expressions bit by bit *******/

  /** Bitwise or, and bitwise and, of natural numbers. */
  function Or(a: nat, b: nat): nat
    decreases a + b
  {
    if a == 0 && b == 0 then 0 else (if a % 2 == 1 || b % 2 == 1 then 1 else 0) + 2 * Or(a / 2, b / 2)
  }

  function And(a: nat, b: nat): nat {
    if a == 0 then 0 else (if a % 2 == 1 && b % 2 == 1 then 1 else 0) + 2 * And(a / 2, b / 2)
  }

  function Power2(k: nat): (p: nat)
    ensures p >= 1
  {
    if k == 0 then 1 else 2 * Power2(k - 1)
  }

  lemma {:induction false} OrZero(a: nat)
    ensures Or(a, 0) == a
  {
    if a > 0 { OrZero(a / 2); }
  }

  /** Or-ing into the low bits that a shift has cleared is addition. */
  lemma {:induction false} OrIsSum(a: nat, b: nat, k: nat)
    requires b < Power2(k)
    ensures Or(a * Power2(k), b) == a * Power2(k) + b
  {
    if k == 0 {
      OrZero(a);
    } else {
      var x := a * Power2(k - 1);
      assert a * Power2(k) == 2 * x;
      OrIsSum(a, b / 2, k - 1);
      assert (2 * x) / 2 == x && (2 * x) % 2 == 0;
    }
  }

  /** Masking with k ones is the remainder. */
  lemma {:induction false} AndIsRemainder(a: nat, k: nat)
    ensures And(a, Power2(k) - 1) == a % Power2(k)
  {
    if k == 0 {
      AndNone(a);
    } else if a > 0 {
      AndIsRemainder(a / 2, k - 1);
      AndHalf(a, Power2(k - 1));
    } else {
      RemainderUnique(0, 0, 0, Power2(k));
    }
  }

  lemma AndHalf(a: nat, p: nat)
    requires a > 0 && p >= 1 && And(a / 2, p - 1) == (a / 2) % p
    ensures And(a, 2 * p - 1) == a % (2 * p)
  {
    AndStep(a, p);
    HalvedRemainder(a, p);
  }

  lemma AndStep(a: nat, p: nat)
    requires a > 0 && p >= 1
    ensures And(a, 2 * p - 1) == a % 2 + 2 * And(a / 2, p - 1)
  {
    assert (2 * p - 1) % 2 == 1 && (2 * p - 1) / 2 == p - 1;
  }

  lemma {:induction false} AndNone(a: nat)
    ensures And(a, 0) == 0
  {
    if a > 0 { AndNone(a / 2); }
  }

  lemma HalvedRemainder(a: nat, p: nat)
    requires p >= 1
    ensures a % (2 * p) == 2 * ((a / 2) % p) + a % 2
  {
    var q, r := (a / 2) / p, (a / 2) % p;
    assert a / 2 == q * p + r;
    assert a == q * (2 * p) + (2 * r + a % 2);
    RemainderUnique(a, q, 2 * r + a % 2, 2 * p);
  }

  lemma RemainderUnique(a: int, q: int, r: int, m: int)
    requires m >= 1 && 0 <= r < m && a == q * m + r
    ensures a % m == r
  {
    var d := a / m - q;
    assert a == (a / m) * m + a % m;
    assert d * m == r - a % m by { assert (a / m - q) * m == (a / m) * m - q * m; }
    assert -m < d * m < m;
    assert d == 0 by { SmallMultiple(d, m); }
  }

  lemma SmallMultiple(d: int, m: int)
    requires m >= 1 && -m < d * m < m
    ensures d == 0
  {
  }

  lemma Power2Of32()
    ensures Power2(32) == TWO_32
  {
    assert Power2(8) == 256;
    assert Power2(16) == 65536;
    assert Power2(24) == 16777216;
  }

  /** A shift by 32 is a multiplication, so `pack` and `unpack_generation`, read bit by bit,
      are the arithmetic `Pack` and `UnpackGeneration`. */
  lemma PackIsBits(slot: nat, generation: nat, t: Token)
    requires generation < TWO_32
    ensures Or(slot * Power2(32), generation) == Pack(slot, generation)
    ensures And(t, Power2(32) - 1) == UnpackGeneration(t)
    ensures t / Power2(32) == UnpackSlot(t)
  {
    Power2Of32();
    OrIsSum(slot, generation, 32);
    AndIsRemainder(t, 32);
  }

  /** The successor of a generation skips 0. */
  function NextGeneration(g: nat): (r: nat)
    requires 1 <= g <= GENERATIONS
    ensures 1 <= r <= GENERATIONS
    ensures r == Cycle(g, 1)
  {
    var n := (g + 1) % TWO_32;
    if n == 0 then MIN_GENERATION else n
  }

  /** The generation `n` releases after `g`. */
  function Cycle(g: nat, n: nat): nat
    requires 1 <= g <= GENERATIONS
  {
    (g - 1 + n) % GENERATIONS + 1
  }

  lemma CycleStep(g: nat, n: nat)
    requires 1 <= g <= GENERATIONS
    ensures 1 <= Cycle(g, n) <= GENERATIONS
    ensures NextGeneration(Cycle(g, n)) == Cycle(g, n + 1)
    ensures Cycle(g, n) == g <==> n % GENERATIONS == 0
  {
    ModSuccessor(g - 1 + n);
    ModReturns(g - 1, n);
  }

  lemma ModSuccessor(x: nat)
    ensures (x + 1) % GENERATIONS == if x % GENERATIONS == GENERATIONS - 1 then 0 else x % GENERATIONS + 1
  {
    var q, r := x / GENERATIONS, x % GENERATIONS;
    assert x + 1 == q * GENERATIONS + (r + 1);
  }

  lemma ModReturns(a: nat, n: nat)
    requires a < GENERATIONS
    ensures (a + n) % GENERATIONS == a <==> n % GENERATIONS == 0
  {
    var q, r := n / GENERATIONS, n % GENERATIONS;
    assert a + n == q * GENERATIONS + (a + r);
  }

  /******* Operations *******/

  predicate SlotSound<P>(s: Slot<P>) {
    && 1 <= s.generation <= GENERATIONS
    && (s.live <==> s.payload.Some?)
  }

  /** The free list is exactly the dead slots. */
  predicate Valid<P>(t: Table<P>) {
    && |t.slots| < TWO_32
    && (forall i :: 0 <= i < |t.slots| ==> SlotSound(t.slots[i]))
    && (forall k :: 0 <= k < |t.free| ==> t.free[k] < |t.slots|)
    && Distinct(t.free)
    && (forall i :: 0 <= i < |t.slots| ==> (i in t.free <==> !t.slots[i].live))
  }

  function Empty<P>(): (t: Table<P>)
    ensures Valid(t)
  {
    Table([], [])
  }

  function TokenOf<P>(t: Table<P>, i: nat): Token
    requires i < |t.slots|
  {
    Pack(i, t.slots[i].generation)
  }

  predicate HasRoom<P>(t: Table<P>) {
    t.free != [] || |t.slots| < TWO_32 - 1
  }

  /** Bind `payload` to a fresh token, or return 0 with the table unchanged when the
      slot index space is used up. */
  function Insert<P>(t: Table<P>, kind: Kind, payload: P): (Table<P>, Token)
    requires Valid(t)
  {
    if t.free != [] then
      var i := t.free[|t.free| - 1];
      var s := t.slots[i].(live := true, kind := kind, payload := Some(payload));
      (Table(t.slots[i := s], t.free[..|t.free| - 1]), Pack(i, s.generation))
    else if |t.slots| >= TWO_32 - 1 then
      (t, 0)
    else
      (Table(t.slots + [Slot(MIN_GENERATION, true, kind, Some(payload))], t.free), Pack(|t.slots|, MIN_GENERATION))
  }

  /** `token` names a slot that is in use under the token's own generation. */
  predicate Current<P>(t: Table<P>, token: Token) {
    var i := UnpackSlot(token);
    i < |t.slots| && t.slots[i].live && t.slots[i].generation == UnpackGeneration(token)
  }

  predicate Accepts<P>(t: Table<P>, token: Token, kind: Kind) {
    Current(t, token) && t.slots[UnpackSlot(token)].kind == kind
  }

  function Lookup<P>(t: Table<P>, token: Token, kind: Kind): (Status, Option<P>) {
    if token == 0 then (NullHandle, None)
    else if !Accepts(t, token, kind) then (InvalidHandle, None)
    else (Ok, t.slots[UnpackSlot(token)].payload)
  }

  function Release<P>(t: Table<P>, token: Token, kind: Kind): (Table<P>, Status)
    requires Valid(t)
  {
    if token == 0 then (t, NullHandle)
    else if !Accepts(t, token, kind) then (t, InvalidHandle)
    else
      var i := UnpackSlot(token);
      var s := t.slots[i];
      (Table(t.slots[i := s.(live := false, payload := None, generation := NextGeneration(s.generation))], t.free + [i]), Ok)
  }

  /******* Refinement of a map *******/

  /** The abstract content: every live token with its kind and payload. */
  function Live<P>(t: Table<P>): map<Token, (Kind, P)>
    requires Valid(t)
  {
    map k | k in Tokens(t) && Current(t, k) :: Content(t, k)
  }

  function Tokens<P>(t: Table<P>): set<Token> {
    set i: nat | i < |t.slots| :: TokenOf(t, i)
  }

  function Content<P>(t: Table<P>, k: Token): (Kind, P)
    requires Valid(t) && Current(t, k)
  {
    var s := t.slots[UnpackSlot(k)];
    assert SlotSound(s);
    (s.kind, s.payload.value)
  }

  lemma LiveIff<P>(t: Table<P>, k: Token)
    requires Valid(t)
    ensures k in Live(t) <==> Current(t, k)
    ensures k in Live(t) ==> k != 0 && Live(t)[k] == Content(t, k)
  {
    if Current(t, k) {
      UnpackRoundTrip(k);
      assert SlotSound(t.slots[UnpackSlot(k)]);
      assert TokenOf(t, UnpackSlot(k)) == k;
    }
  }

  /** `lookup` succeeds exactly for the live tokens of the right kind, and then returns
      what was inserted. */
  lemma LookupRefinesMap<P>(t: Table<P>, k: Token, kind: Kind)
    requires Valid(t)
    ensures var (status, payload) := Lookup(t, k, kind);
      && (status == Ok <==> k in Live(t) && Live(t)[k].0 == kind)
      && (status == Ok ==> payload == Some(Live(t)[k].1))
      && (status != Ok ==> payload == None && status == if k == 0 then NullHandle else InvalidHandle)
  {
    LiveIff(t, k);
    if UnpackSlot(k) < |t.slots| {
      assert SlotSound(t.slots[UnpackSlot(k)]);
    }
  }

  lemma InsertKeepsValid<P>(t: Table<P>, kind: Kind, payload: P)
    requires Valid(t)
    ensures Valid(Insert(t, kind, payload).0)
  {
    if t.free != [] {
      var k := |t.free| - 1;
      RemoveAtMembers(t.free, k);
      assert t.free[..k] == RemoveAt(t.free, k);
      assert t.free[k] in t.free;
      assert SlotSound(t.slots[t.free[k]]);
    }
  }

  /** The slot that `insert` uses. */
  function Target<P>(t: Table<P>): nat {
    if t.free != [] then t.free[|t.free| - 1] else |t.slots|
  }

  lemma InsertSlot<P>(t: Table<P>, kind: Kind, payload: P)
    requires Valid(t) && HasRoom(t)
    ensures var (u, k) := Insert(t, kind, payload); var i := Target(t);
      && UnpackSlot(k) == i < |u.slots| && u.slots[i] == Slot(UnpackGeneration(k), true, kind, Some(payload))
      && 1 <= UnpackGeneration(k) && k != 0
      && (i < |t.slots| ==> !t.slots[i].live)
      && |t.slots| <= |u.slots|
      && (forall j :: 0 <= j < |u.slots| && j != i ==> j < |t.slots| && u.slots[j] == t.slots[j])
  {
    var i := Target(t);
    if t.free != [] {
      assert i in t.free;
      assert SlotSound(t.slots[i]);
      PackRoundTrip(i, t.slots[i].generation);
    } else {
      PackRoundTrip(i, MIN_GENERATION);
    }
  }

  lemma InsertAtToken<P>(t: Table<P>, kind: Kind, payload: P, j: Token)
    requires Valid(t) && HasRoom(t)
    requires Valid(Insert(t, kind, payload).0)
    ensures var (u, k) := Insert(t, kind, payload);
      && !Current(t, k)
      && (Current(u, j) <==> j == k || Current(t, j))
      && (Current(u, j) ==> Content(u, j) == if j == k then (kind, payload) else Content(t, j))
  {
    InsertSlot(t, kind, payload);
    UnpackRoundTrip(j);
    UnpackRoundTrip(Insert(t, kind, payload).1);
  }

  /** `insert` adds one new, nonzero token, unless the index space is used up. */
  lemma InsertRefinesMap<P>(t: Table<P>, kind: Kind, payload: P)
    requires Valid(t)
    ensures var (u, k) := Insert(t, kind, payload);
      && Valid(u)
      && (k == 0 <==> t.free == [] && |t.slots| >= 0xFFFF_FFFF)
      && (k == 0 ==> u == t)
      && (k != 0 ==> k !in Live(t) && Live(u) == Live(t)[k := (kind, payload)])
  {
    InsertKeepsValid(t, kind, payload);
    if HasRoom(t) {
      var (u, k) := Insert(t, kind, payload);
      InsertSlot(t, kind, payload);
      LiveIff(t, k);
      var m := Live(t)[k := (kind, payload)];
      forall j: Token
        ensures j in Live(u) <==> j in m
        ensures j in Live(u) ==> Live(u)[j] == m[j]
      {
        InsertAtToken(t, kind, payload, j);
        LiveIff(t, j);
        LiveIff(u, j);
      }
      assert Live(u) == m;
    }
  }

  lemma ReleaseKeepsValid<P>(t: Table<P>, k: Token, kind: Kind)
    requires Valid(t)
    ensures Valid(Release(t, k, kind).0)
  {
    if k != 0 && Accepts(t, k, kind) {
      var i := UnpackSlot(k);
      InsertAtMembers(t.free, |t.free|, i);
      assert t.free + [i] == InsertAt(t.free, |t.free|, i);
      assert SlotSound(t.slots[i]);
    }
  }

  lemma ReleaseAtToken<P>(t: Table<P>, k: Token, kind: Kind, j: Token)
    requires Valid(t) && k != 0 && Accepts(t, k, kind)
    requires Valid(Release(t, k, kind).0)
    ensures var u := Release(t, k, kind).0;
      && (Current(u, j) <==> j != k && Current(t, j))
      && (Current(u, j) ==> Content(u, j) == Content(t, j))
  {
    UnpackRoundTrip(j);
    UnpackRoundTrip(k);
  }

  /** `release` removes exactly the token it is given, and does nothing to a token that
      is not live with that kind. */
  lemma ReleaseRefinesMap<P>(t: Table<P>, k: Token, kind: Kind)
    requires Valid(t)
    ensures var (u, status) := Release(t, k, kind);
      && Valid(u)
      && (status == Ok <==> k in Live(t) && Live(t)[k].0 == kind)
      && (status == Ok ==> Live(u) == Live(t) - {k})
      && (status != Ok ==> u == t && status == if k == 0 then NullHandle else InvalidHandle)
  {
    ReleaseKeepsValid(t, k, kind);
    LiveIff(t, k);
    if k != 0 && Accepts(t, k, kind) {
      var u := Release(t, k, kind).0;
      forall j: Token
        ensures j in Live(u) <==> j in Live(t) && j != k
        ensures j in Live(u) ==> Live(u)[j] == Live(t)[j]
      {
        ReleaseAtToken(t, k, kind, j);
        LiveIff(t, j);
        LiveIff(u, j);
      }
      assert Live(u) == Live(t) - {k};
    }
  }

  /******* Retired tokens over whole runs *******/

  datatype Op<+P> = OpInsert(kind: Kind, payload: P) | OpRelease(token: Token, kind: Kind)

  function Apply<P>(t: Table<P>, op: Op<P>): (u: Table<P>)
    requires Valid(t)
    ensures Valid(u)
  {
    match op
    case OpInsert(kind, payload) => InsertKeepsValid(t, kind, payload); Insert(t, kind, payload).0
    case OpRelease(k, kind) => ReleaseKeepsValid(t, k, kind); Release(t, k, kind).0
  }

  function Run<P>(t: Table<P>, ops: seq<Op<P>>): (u: Table<P>)
    requires Valid(t)
    ensures Valid(u)
    decreases |ops|
  {
    if ops == [] then t else Run(Apply(t, ops[0]), ops[1..])
  }

  /** Whether `op` retires the current token of slot `i`. */
  predicate Retires<P>(t: Table<P>, op: Op<P>, i: nat) {
    op.OpRelease? && op.token != 0 && UnpackSlot(op.token) == i && Accepts(t, op.token, op.kind)
  }

  /** Number of releases of slot `i` in a run. */
  function Releases<P>(t: Table<P>, ops: seq<Op<P>>, i: nat): nat
    requires Valid(t)
    decreases |ops|
  {
    if ops == [] then 0
    else (if Retires(t, ops[0], i) then 1 else 0) + Releases(Apply(t, ops[0]), ops[1..], i)
  }

  lemma ApplyGeneration<P>(t: Table<P>, op: Op<P>, i: nat)
    requires Valid(t) && i < |t.slots|
    ensures var u := Apply(t, op);
      && i < |u.slots|
      && 1 <= t.slots[i].generation <= GENERATIONS
      && u.slots[i].generation ==
         if Retires(t, op, i) then NextGeneration(t.slots[i].generation) else t.slots[i].generation
  {
    assert SlotSound(t.slots[i]);
  }

  /** A slot's generation counts its releases, whatever else happens in the table. */
  lemma {:induction false} GenerationCountsReleases<P>(t: Table<P>, ops: seq<Op<P>>, i: nat, g: nat, n: nat)
    requires Valid(t) && i < |t.slots| && 1 <= g <= GENERATIONS
    requires t.slots[i].generation == Cycle(g, n)
    ensures i < |Run(t, ops).slots|
    ensures Run(t, ops).slots[i].generation == Cycle(g, n + Releases(t, ops, i))
    decreases |ops|
  {
    if ops != [] {
      ApplyGeneration(t, ops[0], i);
      CycleStep(g, n);
      GenerationCountsReleases(Apply(t, ops[0]), ops[1..], i, g, if Retires(t, ops[0], i) then n + 1 else n);
    }
  }

  /** A retired token is accepted again at the end of a run exactly when the number of
      releases of its slot, counting the one that retired it, is a multiple of
      2^32 - 1 and the slot is in use again. */
  lemma RetiredTokenRevives<P>(t: Table<P>, k: Token, kind: Kind, ops: seq<Op<P>>)
    requires Valid(t) && Release(t, k, kind).1 == Ok
    ensures var r := Apply(t, OpRelease(k, kind));
      var i := UnpackSlot(k);
      var u := Run(r, ops);
      && i < |u.slots|
      && (k in Live(u) <==> u.slots[i].live && (1 + Releases(r, ops, i)) % GENERATIONS == 0)
  {
    var r := Apply(t, OpRelease(k, kind));
    var i := UnpackSlot(k);
    var g := t.slots[i].generation;
    RetiredSlot(t, k, kind);
    GenerationCountsReleases(r, ops, i, g, 1);
    RevivesWhen(Run(r, ops), k, g, 1 + Releases(r, ops, i));
  }

  lemma RevivesWhen<P>(u: Table<P>, k: Token, g: nat, n: nat)
    requires Valid(u) && UnpackSlot(k) < |u.slots| && 1 <= g <= GENERATIONS && UnpackGeneration(k) == g
    requires u.slots[UnpackSlot(k)].generation == Cycle(g, n)
    ensures k in Live(u) <==> u.slots[UnpackSlot(k)].live && n % GENERATIONS == 0
  {
    CycleStep(g, n);
    LiveIff(u, k);
  }

  lemma RetiredSlot<P>(t: Table<P>, k: Token, kind: Kind)
    requires Valid(t) && Release(t, k, kind).1 == Ok
    ensures var i := UnpackSlot(k); var r := Release(t, k, kind).0;
      && i < |t.slots| == |r.slots| && 1 <= t.slots[i].generation <= GENERATIONS
      && t.slots[i].generation == UnpackGeneration(k)
      && r.slots[i].generation == Cycle(t.slots[i].generation, 1)
  {
    assert SlotSound(t.slots[UnpackSlot(k)]);
  }

  lemma NotAMultiple(n: nat)
    requires 0 < n < GENERATIONS
    ensures n % GENERATIONS != 0
  {
  }

  /** So a retired token stays rejected while its slot has had fewer than 2^32 - 1
      releases, and releasing it once more - as `finalize` does with the token of a
      dataset that was closed before - leaves whatever now lives in the slot alone. */
  lemma StaleReleaseIsHarmless<P>(t: Table<P>, k: Token, kind: Kind, ops: seq<Op<P>>, again: Kind)
    requires Valid(t) && Release(t, k, kind).1 == Ok
    requires 1 + Releases(Apply(t, OpRelease(k, kind)), ops, UnpackSlot(k)) < GENERATIONS
    ensures var u := Run(Apply(t, OpRelease(k, kind)), ops);
      && k !in Live(u)
      && Lookup(u, k, again) == (InvalidHandle, None)
      && Release(u, k, again) == (u, InvalidHandle)
  {
    var r := Apply(t, OpRelease(k, kind));
    var u := Run(r, ops);
    assert k !in Live(u) by {
      RetiredTokenRevives(t, k, kind, ops);
      NotAMultiple(1 + Releases(r, ops, UnpackSlot(k)));
    }
    LiveIff(u, k);
    assert k != 0;
  }

  /******* The table object *******/

  class HandleTable<P> {
    var slots: seq<Slot<P>>
    var freeList: seq<nat>

    function State(): Table<P>
      reads this
    {
      Table(slots, freeList)
    }

    constructor ()
      ensures Valid(State()) && Live(State()) == map[]
    {
      slots, freeList := [], [];
    }

    method InsertHandle(kind: Kind, payload: P) returns (k: Token)
      requires Valid(State())
      modifies this
      ensures (State(), k) == Insert(old(State()), kind, payload)
      ensures Valid(State())
    {
      InsertKeepsValid(State(), kind, payload);
      var i: nat;
      if freeList != [] {
        i := freeList[|freeList| - 1];
        freeList := freeList[..|freeList| - 1];
      } else {
        if |slots| >= TWO_32 - 1 { return 0; }
        i := |slots|;
        slots := slots + [Slot(MIN_GENERATION, false, Core, None)];
        assert slots[..i] == old(slots);
      }
      slots := slots[i := slots[i].(live := true, kind := kind, payload := Some(payload))];
      k := Pack(i, slots[i].generation);
      assert slots == Insert(old(State()), kind, payload).0.slots;
    }

    method LookupHandle(k: Token, expected: Kind) returns (status: Status, payload: Option<P>)
      requires Valid(State())
      ensures (status, payload) == Lookup(State(), k, expected)
      ensures status == Ok <==> k in Live(State()) && Live(State())[k].0 == expected
      ensures status == Ok ==> payload == Some(Live(State())[k].1)
    {
      LookupRefinesMap(State(), k, expected);
      if k == 0 { return NullHandle, None; }
      var i := UnpackSlot(k);
      if i >= |slots| { return InvalidHandle, None; }
      if !slots[i].live || slots[i].generation != UnpackGeneration(k) { return InvalidHandle, None; }
      if slots[i].kind != expected { return InvalidHandle, None; }
      return Ok, slots[i].payload;
    }

    method ReleaseHandle(k: Token, expected: Kind) returns (status: Status)
      requires Valid(State())
      modifies this
      ensures (State(), status) == Release(old(State()), k, expected)
      ensures Valid(State())
    {
      ReleaseKeepsValid(State(), k, expected);
      if k == 0 { return NullHandle; }
      var i := UnpackSlot(k);
      if i >= |slots| { return InvalidHandle; }
      if !slots[i].live || slots[i].generation != UnpackGeneration(k) || slots[i].kind != expected {
        return InvalidHandle;
      }
      var g := (slots[i].generation + 1) % TWO_32;
      slots := slots[i := slots[i].(live := false, payload := None, generation := if g == 0 then MIN_GENERATION else g)];
      freeList := freeList + [i];
      return Ok;
    }
  }
}
