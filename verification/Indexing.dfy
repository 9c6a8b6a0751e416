/**
 Row-major index arithmetic of any rank: mixed-radix digits, linear positions, the
 odometer that walks a box in row-major order, and derived strides.
 */
module Indexing {

  function Product(e: seq<int>): int {
    if e == [] then 1 else e[0] * Product(e[1..])
  }

  predicate Positive(e: seq<int>) {
    forall d :: 0 <= d < |e| ==> e[d] >= 1
  }

  /** `i` is a multi-index into a box with extents `e`. */
  predicate InBox(i: seq<int>, e: seq<int>) {
    |i| == |e| && forall d :: 0 <= d < |e| ==> 0 <= i[d] < e[d]
  }

  /** The weighted sum of a multi-index. */
  function Dot(i: seq<int>, s: seq<int>): int
    requires |i| == |s|
  {
    if i == [] then 0 else i[0] * s[0] + Dot(i[1..], s[1..])
  }

  /** The row-major position of a multi-index, defined without strides. */
  function Lin(i: seq<int>, e: seq<int>): int
    requires |i| == |e|
  {
    if i == [] then 0 else i[0] * Product(e[1..]) + Lin(i[1..], e[1..])
  }

  /** The mixed-radix digits of a position. */
  function Digits(n: int, e: seq<int>): (r: seq<int>)
    requires Positive(e)
    ensures |r| == |e|
    decreases |e|
  {
    if e == [] then []
    else
      ProductPositive(e[1..]);
      [n / Product(e[1..])] + Digits(n % Product(e[1..]), e[1..])
  }

  function RowStrides(e: seq<int>): (r: seq<int>)
    ensures |r| == |e|
  {
    if e == [] then [] else [Product(e[1..])] + RowStrides(e[1..])
  }

  lemma {:induction false} ProductPositive(e: seq<int>)
    requires Positive(e)
    ensures Product(e) >= 1
  {
    if e != [] { ProductPositive(e[1..]); }
  }

  /** The position is the sum of index times row-major stride. */
  lemma {:induction false} LinIsDot(i: seq<int>, e: seq<int>)
    requires |i| == |e|
    ensures Lin(i, e) == Dot(i, RowStrides(e))
  {
    if i != [] {
      assert RowStrides(e)[1..] == RowStrides(e[1..]);
      LinIsDot(i[1..], e[1..]);
    }
  }

  lemma MulStep(k: int, p: int)
    requires p >= 1
    ensures (k >= 1 ==> k * p >= p) && (k <= -1 ==> k * p <= -p) && (k >= 0 ==> k * p >= 0)
  {
  }

  lemma Distribute(a: int, b: int, p: int)
    ensures (a + b) * p == a * p + b * p
    ensures (a - b) * p == a * p - b * p
  {
  }

  lemma Scaled(a: int, b: int, p: int, r: int)
    requires 0 <= a < b && 0 <= r < p
    ensures 0 <= a * p + r < b * p
  {
    Distribute(b, a, p);
    MulStep(b - a, p);
    MulStep(a, p);
  }

  lemma Quotient(a: int, p: int, r: int)
    requires 0 <= r < p
    ensures (a * p + r) / p == a && (a * p + r) % p == r
  {
    var n := a * p + r;
    var q := n / p;
    assert n == q * p + n % p;
    Distribute(q, a, p);
    MulStep(q - a, p);
  }

  /** Positions of a box are exactly 0 .. product - 1, one per multi-index. */
  lemma {:induction false} DigitsOfLin(i: seq<int>, e: seq<int>)
    requires Positive(e) && InBox(i, e)
    ensures 0 <= Lin(i, e) < Product(e)
    ensures Digits(Lin(i, e), e) == i
  {
    if i != [] {
      assert InBox(i[1..], e[1..]);
      DigitsOfLin(i[1..], e[1..]);
      Scaled(i[0], e[0], Product(e[1..]), Lin(i[1..], e[1..]));
      Quotient(i[0], Product(e[1..]), Lin(i[1..], e[1..]));
      assert i == [i[0]] + i[1..];
    }
  }

  lemma Divided(n: int, b: int, p: int)
    requires p >= 1 && 0 <= n < b * p
    ensures 0 <= n / p < b && 0 <= n % p < p && n / p * p + n % p == n
  {
    var q := n / p;
    assert n == q * p + n % p;
    Distribute(q, b, p);
    MulStep(q - b, p);
    MulStep(q, p);
  }

  lemma {:induction false} LinOfDigits(n: int, e: seq<int>)
    requires Positive(e) && 0 <= n < Product(e)
    ensures InBox(Digits(n, e), e) && Lin(Digits(n, e), e) == n
  {
    if e != [] {
      var p := Product(e[1..]);
      ProductPositive(e[1..]);
      Divided(n, e[0], p);
      LinOfDigits(n % p, e[1..]);
      assert Digits(n, e)[1..] == Digits(n % p, e[1..]);
    }
  }

  /******* The odometer *******/

  /** Advance the last index; an index that reaches its extent returns to 0 and carries.
      The flag says whether the carry left the first index. */
  function Tick(i: seq<int>, e: seq<int>): (r: (seq<int>, bool))
    requires |i| == |e|
    ensures |r.0| == |i|
  {
    if i == [] then ([], true)
    else
      var (rest, carry) := Tick(i[1..], e[1..]);
      if !carry then ([i[0]] + rest, false)
      else if i[0] + 1 < e[0] then ([i[0] + 1] + rest, false)
      else ([0] + rest, true)
  }

  lemma {:induction false} LinOfZeros(e: seq<int>, z: seq<int>)
    requires |z| == |e| && forall d :: 0 <= d < |z| ==> z[d] == 0
    ensures Lin(z, e) == 0
  {
    if e != [] { LinOfZeros(e[1..], z[1..]); }
  }

  lemma CarryArithmetic(a: int, b: int, p: int, r: int)
    requires 0 <= a < b && r == p - 1 && p >= 1
    ensures (a + 1) * p == a * p + r + 1
    ensures a + 1 == b <==> a * p + r + 1 == b * p
  {
    Distribute(a, 1, p);
    Distribute(b, a + 1, p);
    MulStep(b - (a + 1), p);
  }

  /** One tick is one step in row-major order, and past the last multi-index it returns
      to the first. */
  lemma {:induction false} TickIsSuccessor(i: seq<int>, e: seq<int>)
    requires Positive(e) && InBox(i, e)
    ensures var (r, carry) := Tick(i, e);
      && InBox(r, e)
      && (carry <==> Lin(i, e) + 1 == Product(e))
      && Lin(r, e) == if carry then 0 else Lin(i, e) + 1
  {
    if i != [] {
      var p, l := Product(e[1..]), Lin(i[1..], e[1..]);
      ProductPositive(e[1..]);
      assert InBox(i[1..], e[1..]);
      TickIsSuccessor(i[1..], e[1..]);
      DigitsOfLin(i[1..], e[1..]);
      var (rest, carry) := Tick(i[1..], e[1..]);
      var r := Tick(i, e).0;
      assert r[1..] == rest;
      if carry {
        CarryArithmetic(i[0], e[0], p, l);
      } else {
        Scaled(i[0], e[0], p, l + 1);
      }
    }
  }

  /** The odometer goes from the digits of `n` to the digits of `n + 1`. */
  lemma TickOnDigits(n: int, e: seq<int>)
    requires Positive(e) && 0 <= n < Product(e)
    ensures var (r, carry) := Tick(Digits(n, e), e);
      && (carry <==> n + 1 == Product(e))
      && r == Digits(if n + 1 < Product(e) then n + 1 else 0, e)
  {
    LinOfDigits(n, e);
    TickIsSuccessor(Digits(n, e), e);
    DigitsOfLin(Tick(Digits(n, e), e).0, e);
  }

  /** A tick that does not carry out of position `d` leaves everything before alone. */
  lemma {:induction false} TickLocal(i: seq<int>, e: seq<int>, d: nat)
    requires |i| == |e| && d <= |i| && !Tick(i[d..], e[d..]).1
    ensures Tick(i, e) == (i[..d] + Tick(i[d..], e[d..]).0, false)
  {
    if d > 0 {
      assert i[1..][d - 1..] == i[d..] && e[1..][d - 1..] == e[d..];
      TickLocal(i[1..], e[1..], d - 1);
      assert i[..d] == [i[0]] + i[1..][..d - 1];
      assert i[..d] + Tick(i[d..], e[d..]).0 == [i[0]] + (i[1..][..d - 1] + Tick(i[d..], e[d..]).0);
    } else {
      assert i[d..] == i && e[d..] == e && i[..d] == [];
      assert [] + Tick(i, e).0 == Tick(i, e).0;
    }
  }

  /** The in-place increment: last dimension first. */
  method Advance(idx: array<int>, e: seq<int>)
    requires idx.Length == |e|
    modifies idx
    ensures idx[..] == Tick(old(idx[..]), e).0
  {
    ghost var was := idx[..];
    var d := |e|;
    while d > 0
      invariant 0 <= d <= |e|
      invariant Tick(was[d..], e[d..]) == (idx[d..], true)
      invariant idx[..d] == was[..d]
    {
      d := d - 1;
      assert was[d..][1..] == was[d + 1..] && e[d..][1..] == e[d + 1..];
      assert idx[d] == idx[..d + 1][d] == was[..d + 1][d] == was[d];
      ghost var rest := idx[d + 1..];
      idx[d] := idx[d] + 1;
      assert idx[d..] == [was[d] + 1] + rest;
      assert idx[..d] == was[..d];
      if idx[d] < e[d] {
        TickLocal(was, e, d);
        assert idx[..] == idx[..d] + idx[d..];
        return;
      }
      idx[d] := 0;
      assert idx[d..] == [0] + rest;
      assert idx[..d] == was[..d];
    }
    assert was[0..] == was && e[0..] == e && idx[0..] == idx[..];
  }

  /** Row-major strides, computed from the last dimension up. */
  method ComputeRowStrides(e: seq<int>) returns (strides: array<int>)
    ensures fresh(strides) && strides[..] == RowStrides(e)
  {
    strides := new int[|e|];
    var acc := 1;
    var d := |e|;
    while d > 0
      invariant 0 <= d <= |e| && acc == Product(e[d..])
      invariant strides[d..] == RowStrides(e[d..])
    {
      d := d - 1;
      assert e[d..][1..] == e[d + 1..];
      ghost var rest := strides[d + 1..];
      strides[d] := acc;
      assert strides[d..] == [acc] + rest;
      acc := acc * e[d];
    }
    assert e[0..] == e && strides[0..] == strides[..];
  }

  /** The weighted sum, accumulated from the first dimension on. */
  method Offset(i: seq<int>, s: seq<int>) returns (sum: int)
    requires |i| == |s|
    ensures sum == Dot(i, s)
  {
    sum := 0;
    var d := 0;
    while d < |i|
      invariant 0 <= d <= |i| && sum + Dot(i[d..], s[d..]) == Dot(i, s)
    {
      assert i[d..][1..] == i[d + 1..] && s[d..][1..] == s[d + 1..];
      sum := sum + i[d] * s[d];
      d := d + 1;
    }
  }

  /** With non-negative strides the last multi-index has the largest offset. */
  lemma {:induction false} DotBounds(i: seq<int>, e: seq<int>, s: seq<int>)
    requires InBox(i, e) && |s| == |e| && forall d :: 0 <= d < |s| ==> s[d] >= 0
    ensures 0 <= Dot(i, s) <= Dot(Last(e), s)
  {
    if i != [] {
      assert Last(e)[1..] == Last(e[1..]);
      assert 0 <= i[0] * s[0] <= (e[0] - 1) * s[0] by {
        assert (e[0] - 1) * s[0] - i[0] * s[0] == (e[0] - 1 - i[0]) * s[0];
      }
      DotBounds(i[1..], e[1..], s[1..]);
    }
  }

  /** The last multi-index of a box. */
  function Last(e: seq<int>): (r: seq<int>)
    ensures |r| == |e|
  {
    seq(|e|, d requires 0 <= d < |e| => e[d] - 1)
  }
}
