/**
 The index arithmetic of the GRIB2 driver and of the coordinator in front of it: checking
 a bounding box, gathering a sub-region from a decoded grid, packing a strided array for
 encoding, and the chain of sizes from the accepted box to the staging buffer.
 */
module Grib2Grid {
  import opened Common
  import opened Selections
  import opened Indexing

  /** Bytes of an F32 grid point. */
  const POINT_SIZE: nat := 4

  /******* Bounding boxes *******/

  /** The arithmetic test: the last selected index of every dimension is in range. */
  predicate Fits(off: seq<int>, ext: seq<int>, str: seq<int>, grid: seq<int>) {
    && |off| == |ext| == |str| == |grid|
    && forall d :: 0 <= d < |grid| ==> DimFits(off[d], ext[d], str[d], grid[d])
  }

  predicate DimFits(off: int, ext: int, str: int, grid: int) {
    ext >= 1 && str >= 1 && off >= 0 && off + (ext - 1) * str < grid
  }

  /** What it has to mean: something is selected in every dimension, and every selected
      index exists. */
  ghost predicate Inside(off: seq<int>, ext: seq<int>, str: seq<int>, grid: seq<int>) {
    && |off| == |ext| == |str| == |grid|
    && forall d :: 0 <= d < |grid| ==> DimInside(off[d], ext[d], str[d], grid[d])
  }

  ghost predicate DimInside(off: int, ext: int, str: int, grid: int) {
    ext >= 1 && str >= 1 && forall j :: 0 <= j < ext ==> 0 <= Selected(off, str, j) < grid
  }

  /** The j-th selected index of one dimension. */
  function Selected(off: int, str: int, j: int): int { off + j * str }

  lemma SelectedGrows(off: int, str: int, j: int, k: int)
    requires 0 <= j <= k && str >= 1
    ensures off <= Selected(off, str, j) <= Selected(off, str, k)
  {
    Distribute(k, j, str);
    MulStep(k - j, str);
    MulStep(j, str);
  }

  lemma DimFitsIff(off: int, ext: int, str: int, grid: int)
    ensures DimFits(off, ext, str, grid) <==> DimInside(off, ext, str, grid)
  {
    if DimFits(off, ext, str, grid) {
      forall j | 0 <= j < ext ensures 0 <= Selected(off, str, j) < grid {
        SelectedGrows(off, str, j, ext - 1);
      }
    }
    if DimInside(off, ext, str, grid) {
      assert 0 <= Selected(off, str, 0) < grid && 0 <= Selected(off, str, ext - 1) < grid;
    }
  }

  /** The last-index test accepts a box exactly when every selected index is in range. */
  lemma FitsIffInside(off: seq<int>, ext: seq<int>, str: seq<int>, grid: seq<int>)
    ensures Fits(off, ext, str, grid) <==> Inside(off, ext, str, grid)
  {
    if |off| == |ext| == |str| == |grid| {
      forall d | 0 <= d < |grid| ensures DimFits(off[d], ext[d], str[d], grid[d]) <==> DimInside(off[d], ext[d], str[d], grid[d]) {
        DimFitsIff(off[d], ext[d], str[d], grid[d]);
      }
    }
  }

  datatype ShapeData = ShapeData(rank: int, extents: seq<int>, strides: seq<int>)

  type Shape = s: ShapeData | |s.extents| == |s.strides| == MAX_RANK
    witness ShapeData(0, [0, 0, 0, 0, 0, 0, 0], [0, 0, 0, 0, 0, 0, 0])

  function Extents(s: Shape): seq<int> { s.extents[..Dims(s.rank)] }

  function Strides(s: Shape): seq<int> { s.strides[..Dims(s.rank)] }

  /** `validate_bbox` accepts a null box, and otherwise exactly the boxes of the variable's
      rank that select at least one index per dimension, all of them in range. */
  method ValidateBox(sel: Selection, shape: Shape) returns (status: Status)
    requires shape.rank <= MAX_RANK
    ensures status == Ok || status == InvalidInput
    ensures status == Ok <==>
      (sel.Some? ==> sel.value.rank == shape.rank
                     && Inside(sel.value.offsets[..Dims(shape.rank)], sel.value.extents[..Dims(shape.rank)],
                               sel.value.strides[..Dims(shape.rank)], Extents(shape)))
  {
    if sel.None? { return Ok; }
    var b: BoxData := sel.value;
    if b.rank != shape.rank { return InvalidInput; }
    ghost var n := Dims(b.rank);
    FitsIffInside(b.offsets[..n], b.extents[..n], b.strides[..n], Extents(shape));
    var d := 0;
    while d < b.rank
      invariant 0 <= d <= n
      invariant forall j :: 0 <= j < d ==> DimFits(b.offsets[j], b.extents[j], b.strides[j], shape.extents[j])
    {
      if b.strides[d] < 1 || b.offsets[d] < 0 || b.extents[d] < 1 || b.offsets[d] + (b.extents[d] - 1) * b.strides[d] >= shape.extents[d] {
        assert !DimFits(b.offsets[..n][d], b.extents[..n][d], b.strides[..n][d], Extents(shape)[d]);
        return InvalidInput;
      }
      d := d + 1;
    }
    return Ok;
  }

  /******* Gathering a sub-region *******/

  /** The multi-index in the grid of the box element with multi-index `i`. */
  function Position(off: seq<int>, str: seq<int>, i: seq<int>): (p: seq<int>)
    requires |off| == |str| == |i|
    ensures |p| == |i|
  {
    seq(|i|, d requires 0 <= d < |i| => Selected(off[d], str[d], i[d]))
  }

  lemma PositionIs(off: seq<int>, str: seq<int>, i: seq<int>, p: seq<int>)
    requires |off| == |str| == |i| == |p| && forall d :: 0 <= d < |p| ==> p[d] == off[d] + i[d] * str[d]
    ensures p == Position(off, str, i)
  {
  }

  lemma PositionInGrid(off: seq<int>, ext: seq<int>, str: seq<int>, grid: seq<int>, i: seq<int>)
    requires Fits(off, ext, str, grid) && InBox(i, ext)
    ensures InBox(Position(off, str, i), grid) && Positive(grid)
    ensures 0 <= Lin(Position(off, str, i), grid) < Product(grid)
  {
    FitsIffInside(off, ext, str, grid);
    forall d | 0 <= d < |grid| ensures 0 <= Position(off, str, i)[d] < grid[d] {
      assert DimInside(off[d], ext[d], str[d], grid[d]);
    }
    DigitsOfLin(Position(off, str, i), grid);
  }

  lemma FitsPositive(off: seq<int>, ext: seq<int>, str: seq<int>, grid: seq<int>)
    requires Fits(off, ext, str, grid)
    ensures Positive(ext) && Product(ext) >= 1
  {
    ProductPositive(ext);
  }

  /** The grid point that output element `k` comes from. */
  function SourceOf(off: seq<int>, ext: seq<int>, str: seq<int>, grid: seq<int>, k: int): int
    requires |off| == |str| == |grid| == |ext| && Positive(ext)
  {
    Lin(Position(off, str, Digits(k, ext)), grid)
  }

  lemma SourceStep(off: seq<int>, ext: seq<int>, str: seq<int>, grid: seq<int>, k: int)
    requires Fits(off, ext, str, grid) && Positive(ext) && 0 <= k < Product(ext)
    ensures 0 <= SourceOf(off, ext, str, grid, k) < Product(grid)
    ensures Dot(Position(off, str, Digits(k, ext)), RowStrides(grid)) == SourceOf(off, ext, str, grid, k)
    ensures Tick(Digits(k, ext), ext).0 == Digits(if k + 1 < Product(ext) then k + 1 else 0, ext)
  {
    LinOfDigits(k, ext);
    PositionInGrid(off, ext, str, grid, Digits(k, ext));
    LinIsDot(Position(off, str, Digits(k, ext)), grid);
    TickOnDigits(k, ext);
  }

  lemma StartsAtZero(z: seq<int>, e: seq<int>)
    requires Positive(e) && |z| == |e| && forall d :: 0 <= d < |z| ==> z[d] == 0
    ensures z == Digits(0, e)
  {
    LinOfZeros(e, z);
    DigitsOfLin(z, e);
  }

  /** A multi-index of zeros. */
  method Origin(e: seq<int>) returns (idx: array<int>)
    requires Positive(e)
    ensures fresh(idx) && idx[..] == Digits(0, e)
  {
    idx := new int[|e|];
    for d := 0 to |e|
      invariant forall j :: 0 <= j < d ==> idx[j] == 0
    {
      idx[d] := 0;
    }
    StartsAtZero(idx[..], e);
  }

  /** The first `n` elements of `o` are gathered. */
  ghost predicate Gathered<T>(full: seq<T>, o: seq<T>, off: seq<int>, ext: seq<int>, str: seq<int>, grid: seq<int>, n: int)
    requires |off| == |str| == |grid| == |ext| && Positive(ext)
  {
    && n <= |o|
    && forall k :: 0 <= k < n ==>
         0 <= SourceOf(off, ext, str, grid, k) < |full| && o[k] == full[SourceOf(off, ext, str, grid, k)]
  }

  /** The largest grid position that a box selects. */
  function Furthest(off: seq<int>, ext: seq<int>, str: seq<int>, grid: seq<int>): int
    requires |off| == |str| == |grid| == |ext|
  {
    Lin(seq(|grid|, d requires 0 <= d < |grid| => off[d] + (ext[d] - 1) * str[d]), grid)
  }

  lemma FurthestIsLast(off: seq<int>, ext: seq<int>, str: seq<int>, grid: seq<int>)
    requires |off| == |str| == |grid| == |ext|
    ensures Furthest(off, ext, str, grid) == Lin(Position(off, str, Last(ext)), grid)
  {
    assert Position(off, str, Last(ext)) == seq(|grid|, d requires 0 <= d < |grid| => off[d] + (ext[d] - 1) * str[d]);
  }

  lemma {:induction false} DotMonotone(a: seq<int>, b: seq<int>, s: seq<int>)
    requires |a| == |b| == |s| && forall d :: 0 <= d < |s| ==> a[d] <= b[d] && s[d] >= 0
    ensures Dot(a, s) <= Dot(b, s)
  {
    if a != [] {
      assert (b[0] - a[0]) * s[0] >= 0;
      Distribute(b[0], a[0], s[0]);
      DotMonotone(a[1..], b[1..], s[1..]);
    }
  }

  lemma FurthestIsLargest(off: seq<int>, ext: seq<int>, str: seq<int>, grid: seq<int>, i: seq<int>)
    requires Fits(off, ext, str, grid) && InBox(i, ext)
    ensures 0 <= Lin(Position(off, str, i), grid) <= Furthest(off, ext, str, grid) < Product(grid)
  {
    PositionInGrid(off, ext, str, grid, i);
    PositionInGrid(off, ext, str, grid, Last(ext));
    var a, b := Position(off, str, i), Position(off, str, Last(ext));
    forall d | 0 <= d < |grid| ensures a[d] <= b[d] {
      assert DimFits(off[d], ext[d], str[d], grid[d]);
      SelectedGrows(off[d], str[d], i[d], ext[d] - 1);
    }
    RowStridesNonNegative(grid);
    DotMonotone(a, b, RowStrides(grid));
    LinIsDot(a, grid);
    LinIsDot(b, grid);
    FurthestIsLast(off, ext, str, grid);
  }

  /** Walk the output in row-major order with an odometer over the box.  The source does not
      check `from`; the model stops where it would read past the record. */
  method GatherLoop<T>(full: seq<T>, off: seq<int>, ext: seq<int>, str: seq<int>, grid: seq<int>, out: array<T>)
      returns (escaped: bool)
    requires Fits(off, ext, str, grid) && Positive(ext) && 0 <= Product(ext) <= out.Length
    modifies out
    ensures escaped <==> exists k :: 0 <= k < Product(ext) && SourceOf(off, ext, str, grid, k) >= |full|
    ensures !escaped ==> Gathered(full, out[..], off, ext, str, grid, Product(ext))
    ensures out[Product(ext)..] == old(out[Product(ext)..])
  {
    var count := Product(ext);
    var strides := ComputeRowStrides(grid);
    var weights := strides[..];
    var idx := Origin(ext);
    var e := 0;
    while e < count
      invariant 0 <= e <= count
      invariant idx[..] == Digits(if e < count then e else 0, ext)
      invariant Gathered(full, out[..], off, ext, str, grid, e)
      invariant out[count..] == old(out[count..])
    {
      SourceStep(off, ext, str, grid, e);
      var from := Offset(Position(off, str, idx[..]), weights);
      if from >= |full| { return true; }
      ghost var before := out[..];
      out[e] := full[from];
      assert out[..] == before[e := full[from]];
      Advance(idx, ext);
      e := e + 1;
    }
    return false;
  }

  lemma GatheredElement<T>(full: seq<T>, o: seq<T>, off: seq<int>, ext: seq<int>, str: seq<int>, grid: seq<int>, i: seq<int>, p: seq<int>)
    requires |off| == |str| == |grid| == |ext| && Positive(ext) && InBox(i, ext)
    requires |p| == |grid| && forall d :: 0 <= d < |grid| ==> p[d] == off[d] + i[d] * str[d]
    requires Gathered(full, o, off, ext, str, grid, Product(ext))
    ensures 0 <= Lin(i, ext) < Product(ext) <= |o| && 0 <= Lin(p, grid) < |full|
    ensures o[Lin(i, ext)] == full[Lin(p, grid)]
  {
    DigitsOfLin(i, ext);
    PositionIs(off, str, i, p);
    var k := Lin(i, ext);
    assert 0 <= SourceOf(off, ext, str, grid, k) < |full|;
  }

  /** The gather: box element `i` lands at its row-major position in the output and comes
      from the grid point with multi-index `p`, offset plus index times stride in every
      dimension.  It leaves the record if and only if the last selected grid point does,
      which a record with fewer points than the grid of its field allows. */
  method Gather<T>(full: seq<T>, off: seq<int>, ext: seq<int>, str: seq<int>, grid: seq<int>, out: array<T>)
      returns (escaped: bool)
    requires Fits(off, ext, str, grid) && Product(ext) <= out.Length
    modifies out
    ensures escaped <==> Furthest(off, ext, str, grid) >= |full|
    ensures forall p :: |p| == |grid| && (forall d :: 0 <= d < |grid| ==> p[d] == off[d] + (ext[d] - 1) * str[d]) ==>
      (escaped <==> Lin(p, grid) >= |full|)
    ensures !escaped ==> forall i, p ::
      InBox(i, ext) && |p| == |grid| && (forall d :: 0 <= d < |grid| ==> p[d] == off[d] + i[d] * str[d]) ==>
        && 0 <= Lin(i, ext) < Product(ext) && 0 <= Lin(p, grid) < |full|
        && out[..][Lin(i, ext)] == full[Lin(p, grid)]
    ensures Product(ext) >= 1 && out[Product(ext)..] == old(out[Product(ext)..])
  {
    FitsPositive(off, ext, str, grid);
    escaped := GatherLoop(full, off, ext, str, grid, out);
    EscapeIff(|full|, off, ext, str, grid);
    forall p | |p| == |grid| && (forall d :: 0 <= d < |grid| ==> p[d] == off[d] + (ext[d] - 1) * str[d])
      ensures Furthest(off, ext, str, grid) == Lin(p, grid)
    {
      FurthestIsLast(off, ext, str, grid);
      PositionIs(off, str, Last(ext), p);
    }
    if !escaped {
      forall i, p | InBox(i, ext) && |p| == |grid| && (forall d :: 0 <= d < |grid| ==> p[d] == off[d] + i[d] * str[d])
        ensures 0 <= Lin(i, ext) < Product(ext) && 0 <= Lin(p, grid) < |full|
        ensures out[..][Lin(i, ext)] == full[Lin(p, grid)]
      {
        GatheredElement(full, out[..], off, ext, str, grid, i, p);
      }
    }
  }

  lemma EscapeIff(points: nat, off: seq<int>, ext: seq<int>, str: seq<int>, grid: seq<int>)
    requires Fits(off, ext, str, grid) && Positive(ext)
    ensures (exists k :: 0 <= k < Product(ext) && SourceOf(off, ext, str, grid, k) >= points)
      <==> Furthest(off, ext, str, grid) >= points
  {
    if k :| 0 <= k < Product(ext) && SourceOf(off, ext, str, grid, k) >= points {
      LinOfDigits(k, ext);
      FurthestIsLargest(off, ext, str, grid, Digits(k, ext));
    }
    if Furthest(off, ext, str, grid) >= points {
      FurthestIsLast(off, ext, str, grid);
      assert InBox(Last(ext), ext);
      DigitsOfLin(Last(ext), ext);
      assert SourceOf(off, ext, str, grid, Lin(Last(ext), ext)) >= points;
    }
  }

  /** No accepted box reads past `points` grid points. */
  ghost predicate AlwaysInRange(grid: seq<int>, points: nat) {
    forall off, ext, str :: Fits(off, ext, str, grid) ==> BoxInRange(off, ext, str, grid, points)
  }

  ghost predicate BoxInRange(off: seq<int>, ext: seq<int>, str: seq<int>, grid: seq<int>, points: nat)
    requires |off| == |ext| == |str| == |grid|
  {
    forall i, p :: InBox(i, ext) && |p| == |grid| && (forall d :: 0 <= d < |grid| ==> p[d] == off[d] + i[d] * str[d]) ==>
      Lin(p, grid) < points
  }

  lemma WholeGridReadsLast(grid: seq<int>, points: nat)
    requires Positive(grid) && AlwaysInRange(grid, points)
    ensures Product(grid) <= points
  {
    ProductPositive(grid);
    var i := Digits(Product(grid) - 1, grid);
    LinOfDigits(Product(grid) - 1, grid);
    var zeros, ones := seq(|grid|, _ => 0), seq(|grid|, _ => 1);
    assert Fits(zeros, grid, ones, grid);
    assert BoxInRange(zeros, grid, ones, grid, points);
    assert forall d :: 0 <= d < |grid| ==> i[d] == zeros[d] + i[d] * ones[d];
    assert Lin(i, grid) < points;
  }

  /** The decoded record must have the points that its identity's grid announces: every
      accepted box then stays inside it, and only then. */
  lemma InRangeIff(grid: seq<int>, points: nat)
    requires Positive(grid)
    ensures Product(grid) <= points <==> AlwaysInRange(grid, points)
  {
    if Product(grid) <= points {
      forall off, ext, str | Fits(off, ext, str, grid) ensures BoxInRange(off, ext, str, grid, points) {
        forall i, p | InBox(i, ext) && |p| == |grid| && (forall d :: 0 <= d < |grid| ==> p[d] == off[d] + i[d] * str[d])
          ensures Lin(p, grid) < points
        {
          PositionInGrid(off, ext, str, grid, i);
          PositionIs(off, str, i, p);
        }
      }
    }
    if AlwaysInRange(grid, points) {
      WholeGridReadsLast(grid, points);
    }
  }

  /******* Reading one record *******/

  /** The extents that `describe_variable` reports. */
  function Described(nj: int, ni: int): seq<int> {
    if nj > 1 then [nj, ni] else [ni]
  }

  /** The extents that `read` works with, given the points of the decoded record. */
  function Decoded(nj: int, ni: int, points: int): seq<int> {
    if nj > 1 then [nj, ni] else [points]
  }

  /** The box has the grid's rank and fits. */
  predicate BoxFits(b: Box, grid: seq<int>) {
    && b.rank == |grid| <= MAX_RANK
    && Fits(b.offsets[..|grid|], b.extents[..|grid|], b.strides[..|grid|], grid)
  }

  /** The points that a selection delivers, if the driver accepts it. */
  function Delivered(sel: Selection, grid: seq<int>, points: int): Option<int> {
    if sel.None? then Some(points)
    else if BoxFits(sel.value, grid) then Some(Product(sel.value.extents[..|grid|]))
    else None
  }

  /** The driver's own checks of a box: the number of selected points, or a rejection. */
  method CheckBox(b: Box, grid: seq<int>) returns (count: Option<int>)
    requires |grid| <= MAX_RANK
    ensures count == Delivered(Some(b), grid, 0)
    ensures count.Some? <==> b.rank == |grid| && Inside(b.offsets[..|grid|], b.extents[..|grid|], b.strides[..|grid|], grid)
    ensures count.Some? ==> count.value == Product(b.extents[..|grid|])
  {
    var n := |grid|;
    FitsIffInside(b.offsets[..n], b.extents[..n], b.strides[..n], grid);
    if b.rank != n { return None; }
    var ext := b.extents[..n];
    var c, d := 1, 0;
    while d < n
      invariant 0 <= d <= n && c * Product(ext[d..]) == Product(ext)
      invariant forall j :: 0 <= j < d ==> DimFits(b.offsets[j], b.extents[j], b.strides[j], grid[j])
    {
      if b.extents[d] < 1 || b.strides[d] < 1 || b.offsets[d] < 0 || b.offsets[d] + (b.extents[d] - 1) * b.strides[d] >= grid[d] {
        assert !DimFits(b.offsets[..n][d], b.extents[..n][d], b.strides[..n][d], grid[d]);
        return None;
      }
      assert ext[d..][1..] == ext[d + 1..];
      Associate(c, ext[d], Product(ext[d + 1..]));
      c := c * b.extents[d];
      d := d + 1;
    }
    return Some(c);
  }

  lemma Commute(a: int, b: int)
    ensures a * b == b * a
  {
  }

  lemma Associate(a: int, b: int, c: int)
    ensures a * b * c == a * (b * c)
  {
  }

  /** How a read ends: refused, past the end of the record, or with so many bytes used. */
  datatype Outcome = Rejected | Escapes | Used(bytes: int)

  /** The outcome of reading through a box. */
  function BoxOutcome(points: nat, b: Box, grid: seq<int>, capacity: nat): Outcome {
    if !BoxFits(b, grid) || POINT_SIZE * Product(b.extents[..|grid|]) > capacity then Rejected
    else if Furthest(b.offsets[..|grid|], b.extents[..|grid|], b.strides[..|grid|], grid) >= points then Escapes
    else Used(POINT_SIZE * Product(b.extents[..|grid|]))
  }

  /** The outcome of reading a record of `points` points into `capacity` bytes. */
  function ReadOutcome(points: nat, nj: int, ni: int, sel: Selection, capacity: nat): Outcome {
    if points == 0 then Rejected
    else if sel.Some? then BoxOutcome(points, sel.value, Decoded(nj, ni, points), capacity)
    else if POINT_SIZE * points > capacity then Rejected
    else Used(POINT_SIZE * points)
  }

  /** What a read through a box delivers: box element `i` is the point of the decoded grid
      whose multi-index `p` is offset plus index times stride. */
  ghost predicate DeliversBox<T>(full: seq<T>, o: seq<T>, b: Box, grid: seq<int>)
    requires |grid| <= MAX_RANK
  {
    DeliversGather(full, o, b.offsets[..|grid|], b.extents[..|grid|], b.strides[..|grid|], grid)
  }

  /** The same for the leading entries of the box. */
  ghost predicate DeliversGather<T>(full: seq<T>, o: seq<T>, off: seq<int>, ext: seq<int>, str: seq<int>, grid: seq<int>)
    requires |off| == |ext| == |str| == |grid|
  {
    && 0 <= Product(ext) <= |o|
    && forall i, p :: InBox(i, ext) && |p| == |grid| && (forall d :: 0 <= d < |grid| ==> p[d] == off[d] + i[d] * str[d]) ==>
         0 <= Lin(i, ext) < Product(ext) && 0 <= Lin(p, grid) < |full| && o[Lin(i, ext)] == full[Lin(p, grid)]
  }

  /** The driver's branch for a box, once the grid is known. */
  method ReadBox<T>(full: seq<T>, b: Box, grid: seq<int>, out: array<T>, capacity: nat) returns (r: Outcome)
    requires |grid| <= MAX_RANK && capacity <= POINT_SIZE * out.Length + POINT_SIZE - 1
    modifies out
    ensures r == BoxOutcome(|full|, b, grid, capacity)
    ensures r.Rejected? ==> out[..] == old(out[..])
    ensures r.Used? ==>
      var n := Product(b.extents[..|grid|]);
      && r.bytes == 4 * n <= capacity && 0 <= n <= out.Length && out[n..] == old(out[n..])
      && DeliversBox(full, out[..], b, grid)
  {
    var count := CheckBox(b, grid);
    if count.None? || POINT_SIZE * count.value > capacity { return Rejected; }
    r := GatherBox(full, b.offsets[..|grid|], b.extents[..|grid|], b.strides[..|grid|], grid, out);
  }

  /** The gather of a box that fits, with the bytes it uses. */
  method GatherBox<T>(full: seq<T>, off: seq<int>, ext: seq<int>, str: seq<int>, grid: seq<int>, out: array<T>) returns (r: Outcome)
    requires Fits(off, ext, str, grid) && Product(ext) <= out.Length
    modifies out
    ensures r == if Furthest(off, ext, str, grid) >= |full| then Escapes else Used(POINT_SIZE * Product(ext))
    ensures r.Used? ==> 0 <= Product(ext) && DeliversGather(full, out[..], off, ext, str, grid)
                        && out[Product(ext)..] == old(out[Product(ext)..])
  {
    var escaped := Gather(full, off, ext, str, grid, out);
    r := if escaped then Escapes else Used(POINT_SIZE * Product(ext));
  }

  /** One decoded record is delivered in full or through a box into a buffer of `capacity`
      bytes.  A rejected read leaves the buffer alone.  `full` is the decoded record,
      `nj` and `ni` are the grid that the index has for the field. */
  method ReadRecord<T>(full: seq<T>, nj: int, ni: int, sel: Selection, out: array<T>, capacity: nat) returns (r: Outcome)
    requires capacity <= POINT_SIZE * out.Length + POINT_SIZE - 1
    modifies out
    ensures r == ReadOutcome(|full|, nj, ni, sel, capacity)
    ensures r.Rejected? ==> out[..] == old(out[..])
    ensures r.Used? && sel.None? ==> r.bytes == 4 * |full| <= capacity && |full| <= out.Length
                                     && out[..|full|] == full && out[|full|..] == old(out[|full|..])
    ensures r.Used? && sel.Some? ==>
      var n := Product(sel.value.extents[..if nj > 1 then 2 else 1]);
      && r.bytes == 4 * n <= capacity && 0 <= n <= out.Length && out[n..] == old(out[n..])
      && DeliversBox(full, out[..], sel.value, if nj > 1 then [nj, ni] else [|full|])
  {
    if |full| == 0 { return Rejected; }
    var grid := Decoded(nj, ni, |full|);
    if sel.None? {
      if POINT_SIZE * |full| > capacity { return Rejected; }
      CopyAll(full, out);
      return Used(POINT_SIZE * |full|);
    }
    r := ReadBox(full, sel.value, grid, out, capacity);
  }

  lemma LinInOneDim(i: int, n: int)
    ensures Lin([i], [n]) == i && Product([n]) == n
  {
    assert [n][1..] == [] && [i][1..] == [];
  }

  /** Row-major in two dimensions: rows of `ni` points, one after the other. */
  lemma LinInTwoDims(j: int, i: int, nj: int, ni: int)
    ensures Lin([j, i], [nj, ni]) == j * ni + i && Product([nj, ni]) == nj * ni
  {
    assert [nj, ni][1..] == [ni] && [j, i][1..] == [i];
    LinInOneDim(i, ni);
  }

  /** A box over nj rows of ni points: output row `j`, column `i` is the point in row
      offset + j * stride and column offset + i * stride of the record. */
  lemma BoxOfRows<T>(full: seq<T>, o: seq<T>, b: Box, nj: int, ni: int, j: int, i: int)
    requires DeliversBox(full, o, b, [nj, ni]) && 0 <= j < b.extents[0] && 0 <= i < b.extents[1]
    ensures var to, from := j * b.extents[1] + i, (b.offsets[0] + j * b.strides[0]) * ni + b.offsets[1] + i * b.strides[1];
      0 <= to < |o| && 0 <= from < |full| && o[to] == full[from]
  {
    TwoEntries(b);
    GatheredRow(full, o, b.offsets[..2], b.extents[..2], b.strides[..2], nj, ni, j, i);
  }

  lemma TwoEntries(b: Box)
    ensures b.offsets[..2] == [b.offsets[0], b.offsets[1]] && b.extents[..2] == [b.extents[0], b.extents[1]]
    ensures b.strides[..2] == [b.strides[0], b.strides[1]]
  {
  }

  lemma GatheredRow<T>(full: seq<T>, o: seq<T>, off: seq<int>, ext: seq<int>, str: seq<int>, nj: int, ni: int, j: int, i: int)
    requires |off| == |ext| == |str| == 2 && DeliversGather(full, o, off, ext, str, [nj, ni]) && 0 <= j < ext[0] && 0 <= i < ext[1]
    ensures var to, from := j * ext[1] + i, (off[0] + j * str[0]) * ni + off[1] + i * str[1];
      0 <= to < |o| && 0 <= from < |full| && o[to] == full[from]
  {
    var y, x := off[0] + j * str[0], off[1] + i * str[1];
    assert ext == [ext[0], ext[1]];
    LinInTwoDims(j, i, ext[0], ext[1]);
    LinInTwoDims(y, x, nj, ni);
    assert InBox([j, i], ext) && |[y, x]| == |[nj, ni]|;
    assert 0 <= Lin([y, x], [nj, ni]) < |full|;
  }

  /** A box over a single row. */
  lemma BoxOfPoints<T>(full: seq<T>, o: seq<T>, b: Box, i: int)
    requires DeliversBox(full, o, b, [|full|]) && 0 <= i < b.extents[0]
    ensures var from := b.offsets[0] + i * b.strides[0];
      i < |o| && 0 <= from < |full| && o[i] == full[from]
  {
    var ext := b.extents[..1];
    assert ext == [b.extents[0]];
    var p := [b.offsets[0] + i * b.strides[0]];
    assert InBox([i], ext) && forall d :: 0 <= d < 1 ==> p[d] == b.offsets[d] + [i][d] * b.strides[d];
    LinInOneDim(i, b.extents[0]);
    LinInOneDim(p[0], |full|);
  }

  /** The last point that a box over rows of `ni` points selects. */
  function LastOfRows(b: Box, ni: int): int {
    (b.offsets[0] + (b.extents[0] - 1) * b.strides[0]) * ni + b.offsets[1] + (b.extents[1] - 1) * b.strides[1]
  }

  lemma TwoFurthest(b: Box, nj: int, ni: int)
    ensures Furthest(b.offsets[..2], b.extents[..2], b.strides[..2], [nj, ni]) == LastOfRows(b, ni)
  {
    var p := [b.offsets[0] + (b.extents[0] - 1) * b.strides[0], b.offsets[1] + (b.extents[1] - 1) * b.strides[1]];
    var off, ext, str := b.offsets[..2], b.extents[..2], b.strides[..2];
    assert p == seq(2, d requires 0 <= d < 2 => off[d] + (ext[d] - 1) * str[d]);
    LinInTwoDims(p[0], p[1], nj, ni);
  }

  /** The box is accepted for a record of nj rows of ni points (a single row of `points` if
      nj is not above 1): its rank is right and it selects existing indices only. */
  ghost predicate BoxAccepted(b: Box, nj: int, ni: int, points: int) {
    if nj > 1
    then b.rank == 2 && DimInside(b.offsets[0], b.extents[0], b.strides[0], nj) && DimInside(b.offsets[1], b.extents[1], b.strides[1], ni)
    else b.rank == 1 && DimInside(b.offsets[0], b.extents[0], b.strides[0], points)
  }

  lemma BoxAcceptedIff(b: Box, nj: int, ni: int, points: int)
    ensures BoxAccepted(b, nj, ni, points) <==> BoxFits(b, Decoded(nj, ni, points))
  {
    DimFitsIff(b.offsets[0], b.extents[0], b.strides[0], if nj > 1 then nj else points);
    DimFitsIff(b.offsets[1], b.extents[1], b.strides[1], ni);
    if nj > 1 && b.rank == 2 {
      assert b.offsets[..2] == [b.offsets[0], b.offsets[1]] && b.extents[..2] == [b.extents[0], b.extents[1]];
      assert b.strides[..2] == [b.strides[0], b.strides[1]];
    } else if nj <= 1 && b.rank == 1 {
      assert b.offsets[..1] == [b.offsets[0]] && b.extents[..1] == [b.extents[0]] && b.strides[..1] == [b.strides[0]];
    }
  }

  /** The points that a selection asks for. */
  function Asked(sel: Selection, nj: int, points: int): int {
    if sel.None? then points
    else if nj > 1 then sel.value.extents[0] * sel.value.extents[1]
    else sel.value.extents[0]
  }

  lemma AskedIsDelivered(sel: Selection, nj: int, ni: int, points: nat)
    ensures Delivered(sel, Decoded(nj, ni, points), points)
      == if sel.Some? && !BoxAccepted(sel.value, nj, ni, points) then None else Some(Asked(sel, nj, points))
  {
    if sel.Some? {
      var b: BoxData := sel.value;
      BoxAcceptedIff(b, nj, ni, points);
      if nj > 1 {
        assert b.extents[..2] == [b.extents[0], b.extents[1]];
        LinInTwoDims(0, 0, b.extents[0], b.extents[1]);
      } else {
        assert b.extents[..1] == [b.extents[0]];
        LinInOneDim(0, b.extents[0]);
      }
    }
  }

  /** When a read is rejected: no points, a box that is not accepted, or a buffer that is too
      small.  When it leaves the record: never for a single row, else if the last selected
      point lies behind the record's end. */
  lemma ReadVerdict(points: nat, nj: int, ni: int, sel: Selection, capacity: nat)
    ensures ReadOutcome(points, nj, ni, sel, capacity).Rejected? <==>
      points == 0 || (sel.Some? && !BoxAccepted(sel.value, nj, ni, points)) || 4 * Asked(sel, nj, points) > capacity
    ensures ReadOutcome(points, nj, ni, sel, capacity).Used? ==>
      ReadOutcome(points, nj, ni, sel, capacity).bytes == 4 * Asked(sel, nj, points)
    ensures !ReadOutcome(points, nj, ni, sel, capacity).Rejected? ==>
      (ReadOutcome(points, nj, ni, sel, capacity).Escapes? <==> sel.Some? && nj > 1 && LastOfRows(sel.value, ni) >= points)
  {
    AskedIsDelivered(sel, nj, ni, points);
    if sel.Some? && nj > 1 {
      TwoFurthest(sel.value, nj, ni);
    } else if nj <= 1 {
      EnoughPointsNeverEscapes(points, nj, ni, sel, capacity);
    }
  }

  /** A record with the points of its field's grid is never left, whatever the box. */
  lemma EnoughPointsNeverEscapes(points: nat, nj: int, ni: int, sel: Selection, capacity: nat)
    requires nj > 1 ==> nj * ni <= points
    ensures ReadOutcome(points, nj, ni, sel, capacity) != Escapes
  {
    var grid := Decoded(nj, ni, points);
    DecodedProduct(nj, ni, points);
    if sel.Some? && BoxFits(sel.value, grid) {
      var off, ext, str := sel.value.offsets[..|grid|], sel.value.extents[..|grid|], sel.value.strides[..|grid|];
      assert InBox(Last(ext), ext);
      FurthestIsLargest(off, ext, str, grid, Last(ext));
    }
  }

  lemma DecodedProduct(nj: int, ni: int, points: int)
    ensures Product(Decoded(nj, ni, points)) == if nj > 1 then nj * ni else points
  {
    assert [nj, ni][1..] == [ni] && [ni][1..] == [] && [points][1..] == [];
    assert Product([ni]) == ni;
  }

  method CopyAll<T>(full: seq<T>, out: array<T>)
    requires |full| <= out.Length
    modifies out
    ensures out[..|full|] == full && out[|full|..] == old(out[|full|..])
  {
    var k := 0;
    while k < |full|
      invariant 0 <= k <= |full| && out[..k] == full[..k] && out[|full|..] == old(out[|full|..])
    {
      out[k] := full[k];
      k := k + 1;
    }
  }

  /******* The size chain *******/

  /** The bytes that a fetch asks the staging pool for. */
  function AcquireSize(elem: nat, shape: Shape, sel: Selection, nominal: nat): int {
    var whole := if elem > 0 && shape.rank > 0 && Positive(Extents(shape)) then elem * Product(Extents(shape)) else 0;
    var window := if sel.Some? && sel.value.rank > 0 && elem > 0 && Positive(sel.value.extents[..Dims(sel.value.rank)])
      then elem * Product(sel.value.extents[..Dims(sel.value.rank)]) else whole;
    if window > 0 then window else nominal
  }

  /** The product of the extents, unless one of them is not positive. */
  method ProductIfPositive(ext: seq<int>) returns (product: Option<int>)
    ensures product == if Positive(ext) then Some(Product(ext)) else None
  {
    var c, d := 1, 0;
    while d < |ext|
      invariant 0 <= d <= |ext| && c * Product(ext[d..]) == Product(ext)
      invariant forall j :: 0 <= j < d ==> ext[j] >= 1
    {
      if ext[d] <= 0 { return None; }
      assert ext[d..][1..] == ext[d + 1..];
      Associate(c, ext[d], Product(ext[d + 1..]));
      c := c * ext[d];
      d := d + 1;
    }
    return Some(c);
  }

  method ComputeAcquireSize(elem: nat, shape: Shape, sel: Selection, nominal: nat) returns (bytes: int)
    ensures bytes == AcquireSize(elem, shape, sel, nominal)
  {
    bytes := 0;
    if elem > 0 && shape.rank > 0 {
      var p := ProductIfPositive(Extents(shape));
      if p.Some? { bytes := elem * p.value; }
    }
    if sel.Some? && sel.value.rank > 0 {
      var p := ProductIfPositive(sel.value.extents[..Dims(sel.value.rank)]);
      if elem > 0 && p.Some? { bytes := elem * p.value; }
    }
    if bytes <= 0 { bytes := nominal; }
  }

  /** `validate_bbox` accepts the box for a variable of this shape. */
  ghost predicate WindowAccepted(b: Box, shape: Shape) {
    && 1 <= b.rank == shape.rank <= MAX_RANK
    && Inside(b.offsets[..shape.rank], b.extents[..shape.rank], b.strides[..shape.rank], Extents(shape))
  }

  /** Element size times the window's extents where a window with positive extents is given,
      else times the shape's extents where those are positive, else the nominal capacity;
      for a box that `validate_bbox` accepts always the first. */
  lemma SizeAsked(elem: nat, shape: Shape, sel: Selection, nominal: nat)
    ensures var window := sel.Some? && sel.value.rank > 0 && forall d :: 0 <= d < Dims(sel.value.rank) ==> sel.value.extents[d] >= 1;
      var whole := shape.rank > 0 && forall d :: 0 <= d < Dims(shape.rank) ==> shape.extents[d] >= 1;
      AcquireSize(elem, shape, sel, nominal) ==
        if elem == 0 then nominal
        else if window then elem * Product(sel.value.extents[..Dims(sel.value.rank)])
        else if whole then elem * Product(shape.extents[..Dims(shape.rank)])
        else nominal
    ensures sel.Some? && WindowAccepted(sel.value, shape) && elem >= 1 ==>
      AcquireSize(elem, shape, sel, nominal) == elem * Product(sel.value.extents[..shape.rank]) >= elem
  {
    var ext := Extents(shape);
    assert Positive(ext) <==> forall d :: 0 <= d < Dims(shape.rank) ==> shape.extents[d] >= 1;
    if elem >= 1 && Positive(ext) { ScaledProduct(elem, ext); }
    if sel.Some? {
      var n := Dims(sel.value.rank);
      var box := sel.value.extents[..n];
      assert Positive(box) <==> forall d :: 0 <= d < n ==> sel.value.extents[d] >= 1;
      if elem >= 1 && Positive(box) { ScaledProduct(elem, box); }
      if WindowAccepted(sel.value, shape) { assert Positive(box); }
    }
  }

  lemma ScaledProduct(elem: nat, ext: seq<int>)
    requires elem >= 1 && Positive(ext)
    ensures elem * Product(ext) >= elem
  {
    ProductPositive(ext);
    Commute(elem, Product(ext));
    Distribute(Product(ext), 1, elem);
    NotNegative(Product(ext) - 1, elem);
  }

  /** The shape of the view that `amio_read` hands out. */
  function ViewExtents(shape: Shape, sel: Selection): seq<int> {
    if sel.Some? then sel.value.extents[..Dims(sel.value.rank)] else Extents(shape)
  }

  /** From the coordinator's check to the driver's: for a field whose records all have the
      geometry of the index, a selection that `validate_bbox` accepts never fails the
      driver's bound or capacity checks, and the bytes used are the element size times
      the product of the view's extents. */
  lemma SizeChain(nj: int, ni: int, points: int, shape: Shape, sel: Selection, nominal: nat, capacity: nat)
    requires ni >= 1 && nj >= 1 && points == ni * nj
    requires shape.rank == |Described(nj, ni)| && Extents(shape) == Described(nj, ni)
    requires sel.Some? ==>
      && sel.value.rank == shape.rank
      && Inside(sel.value.offsets[..shape.rank], sel.value.extents[..shape.rank], sel.value.strides[..shape.rank], Extents(shape))
    requires capacity >= AcquireSize(POINT_SIZE, shape, sel, nominal)
    ensures Decoded(nj, ni, points) == Described(nj, ni)
    ensures var n := Delivered(sel, Decoded(nj, ni, points), points);
      && n.Some? && POINT_SIZE * n.value == POINT_SIZE * Product(ViewExtents(shape, sel)) <= capacity
      && AcquireSize(POINT_SIZE, shape, sel, nominal) == POINT_SIZE * n.value
      && ReadOutcome(points, nj, ni, sel, capacity) == Used(POINT_SIZE * Product(ViewExtents(shape, sel)))
  {
    var grid := Decoded(nj, ni, points);
    DecodedProduct(nj, ni, points);
    Commute(nj, ni);
    EnoughPointsNeverEscapes(points, nj, ni, sel, capacity);
    assert points >= 1 by { MulStep(ni, nj); }
    if sel.Some? {
      FitsIffInside(sel.value.offsets[..shape.rank], sel.value.extents[..shape.rank], sel.value.strides[..shape.rank], grid);
      ProductPositive(sel.value.extents[..shape.rank]);
    } else {
      assert Positive(Extents(shape));
    }
  }

  /******* Packing for the encoder *******/

  /** `total_elements`: the number of elements, 0 for an unusable shape. */
  function Total(shape: Shape): int {
    if 1 <= shape.rank <= MAX_RANK && Positive(Extents(shape)) then Product(Extents(shape)) else 0
  }

  method TotalElements(shape: Shape) returns (count: int)
    ensures count == Total(shape)
  {
    if shape.rank <= 0 || shape.rank > MAX_RANK { return 0; }
    var p := ProductIfPositive(Extents(shape));
    count := if p.Some? then p.value else 0;
  }

  /** The strides in use: a zero stands for the row-major one. */
  function Resolved(str: seq<int>, ext: seq<int>): (r: seq<int>)
    requires |str| == |ext|
    ensures |r| == |ext|
  {
    if ext == [] then [] else [if str[0] == 0 then Product(ext[1..]) else str[0]] + Resolved(str[1..], ext[1..])
  }

  /** A stride of 0 becomes the product of the extents behind its dimension; any other stays. */
  lemma {:induction false} ResolvedAt(str: seq<int>, ext: seq<int>, d: nat)
    requires |str| == |ext| && d < |ext|
    ensures Resolved(str, ext)[d] == if str[d] == 0 then Product(ext[d + 1..]) else str[d]
  {
    if d > 0 {
      ResolvedAt(str[1..], ext[1..], d - 1);
      assert ext[1..][d..] == ext[d + 1..];
    }
  }

  method ResolveStrides(str: seq<int>, ext: seq<int>) returns (strides: array<int>)
    requires |str| == |ext|
    ensures fresh(strides) && strides[..] == Resolved(str, ext)
  {
    strides := new int[|ext|];
    var acc := 1;
    var d := |ext|;
    while d > 0
      invariant 0 <= d <= |ext| && acc == Product(ext[d..])
      invariant strides[d..] == Resolved(str[d..], ext[d..])
    {
      d := d - 1;
      assert ext[d..][1..] == ext[d + 1..] && str[d..][1..] == str[d + 1..];
      ghost var rest := strides[d + 1..];
      strides[d] := if str[d] == 0 then acc else str[d];
      assert strides[d..] == [strides[d]] + rest;
      acc := acc * ext[d];
    }
    assert ext[0..] == ext && str[0..] == str && strides[0..] == strides[..];
  }

  /** `is_contiguous_row_major` holds exactly when the strides in use are the row-major
      ones. */
  method IsContiguous(shape: Shape) returns (c: bool)
    ensures c <==> 1 <= shape.rank <= MAX_RANK && Resolved(Strides(shape), Extents(shape)) == RowStrides(Extents(shape))
  {
    if shape.rank <= 0 || shape.rank > MAX_RANK { return false; }
    var ext, str := Extents(shape), Strides(shape);
    var allZero := true;
    var d := 0;
    while d < |str|
      invariant 0 <= d <= |str| && allZero
      invariant forall j :: 0 <= j < d ==> str[j] == 0
    {
      if str[d] != 0 { allZero := false; break; }
      d := d + 1;
    }
    if allZero {
      ZerosResolve(str, ext);
      return true;
    }
    var expected := 1;
    d := |ext|;
    while d > 0
      invariant 0 <= d <= |ext| && expected == Product(ext[d..])
      invariant Resolved(str[d..], ext[d..]) == RowStrides(ext[d..])
    {
      d := d - 1;
      assert ext[d..][1..] == ext[d + 1..] && str[d..][1..] == str[d + 1..];
      if str[d] != 0 && str[d] != expected {
        assert Resolved(str[d..], ext[d..])[0] != RowStrides(ext[d..])[0];
        SuffixResolves(str, ext, d);
        return false;
      }
      expected := expected * ext[d];
    }
    assert ext[0..] == ext && str[0..] == str;
    return true;
  }

  lemma {:induction false} ZerosResolve(str: seq<int>, ext: seq<int>)
    requires |str| == |ext| && forall d :: 0 <= d < |str| ==> str[d] == 0
    ensures Resolved(str, ext) == RowStrides(ext)
  {
    if ext != [] { ZerosResolve(str[1..], ext[1..]); }
  }

  lemma {:induction false} SuffixResolves(str: seq<int>, ext: seq<int>, d: nat)
    requires |str| == |ext| && d <= |ext|
    ensures Resolved(str[d..], ext[d..]) == Resolved(str, ext)[d..]
    ensures RowStrides(ext[d..]) == RowStrides(ext)[d..]
  {
    if d > 0 {
      SuffixResolves(str[1..], ext[1..], d - 1);
      assert str[1..][d - 1..] == str[d..] && ext[1..][d - 1..] == ext[d..];
      assert Resolved(str, ext)[d..] == Resolved(str[1..], ext[1..])[d - 1..];
      assert RowStrides(ext)[d..] == RowStrides(ext[1..])[d - 1..];
    } else {
      assert str[d..] == str && ext[d..] == ext;
    }
  }

  /** The bytes of element `at` in a byte array of elements of `size` bytes. */
  function Element<T>(src: seq<T>, at: int, size: nat): seq<T> {
    if 0 <= at * size && at * size + size <= |src| then src[at * size..at * size + size] else []
  }

  /** The first `n` pieces, one after the other. */
  function Collect<T>(piece: nat -> seq<T>, n: nat): seq<T> {
    if n == 0 then [] else Collect(piece, n - 1) + piece(n - 1)
  }

  /** A piece stays where the pieces before it end. */
  lemma {:induction false} CollectFrom<T>(piece: nat -> seq<T>, n: nat, k: nat)
    requires k < n
    ensures |Collect(piece, k)| + |piece(k)| <= |Collect(piece, n)|
    ensures Collect(piece, n)[|Collect(piece, k)|..|Collect(piece, k)| + |piece(k)|] == piece(k)
  {
    if k < n - 1 { CollectFrom(piece, n - 1, k); }
  }

  lemma {:induction false} CollectLength<T>(piece: nat -> seq<T>, n: nat, size: nat)
    requires forall k: nat :: k < n ==> |piece(k)| == size
    ensures |Collect(piece, n)| == n * size
  {
    if n > 0 {
      CollectLength(piece, n - 1, size);
      Distribute(n, 1, size);
    }
  }

  /** Closed form: the first `n` elements of the gather, in row-major order. */
  function Packed<T>(src: seq<T>, ext: seq<int>, str: seq<int>, size: nat, n: nat): seq<T>
    requires Positive(ext) && |str| == |ext|
  {
    Collect(Piece(src, ext, str, size), n)
  }

  function Piece<T>(src: seq<T>, ext: seq<int>, str: seq<int>, size: nat): nat -> seq<T>
    requires Positive(ext) && |str| == |ext|
  {
    (k: nat) => Element(src, Dot(Digits(k, ext), str), size)
  }

  /** The number of elements of a box. */
  function Count(ext: seq<int>): (n: nat)
    requires Positive(ext)
    ensures n == Product(ext) >= 1
  {
    ProductPositive(ext);
    Product(ext)
  }

  /** Element `k` of the box lies inside the source. */
  predicate Inbounds<T>(src: seq<T>, ext: seq<int>, str: seq<int>, size: nat, k: int)
    requires Positive(ext) && |str| == |ext|
  {
    var at := Dot(Digits(k, ext), str);
    0 <= at * size && at * size + size <= |src|
  }

  /** All elements of the box do. */
  predicate AllInbounds<T>(src: seq<T>, ext: seq<int>, str: seq<int>, size: nat)
    requires Positive(ext) && |str| == |ext|
  {
    forall k :: 0 <= k < Product(ext) ==> Inbounds(src, ext, str, size, k)
  }

  /** What a caller can check: no negative stride that matters, and a source that reaches
      as far as the last element. */
  predicate LongEnough<T>(src: seq<T>, ext: seq<int>, str: seq<int>, size: nat)
    requires |str| == |ext|
  {
    && (forall d :: 0 <= d < |ext| ==> ext[d] == 1 || str[d] >= 0)
    && (Dot(Last(ext), str) + 1) * size <= |src|
  }

  lemma TermUpToLast(i: int, ext: int, str: int)
    requires 0 <= i < ext && (ext == 1 || str >= 0)
    ensures 0 <= i * str <= (ext - 1) * str
  {
    if ext > 1 {
      Distribute(ext - 1, i, str);
      NotNegative(ext - 1 - i, str);
      NotNegative(i, str);
    }
  }

  lemma NotNegative(a: int, b: int)
    requires a >= 0 && b >= 0
    ensures a * b >= 0
  {
  }

  lemma {:induction false} DotUpToLast(i: seq<int>, ext: seq<int>, str: seq<int>)
    requires InBox(i, ext) && |str| == |ext| && forall d :: 0 <= d < |ext| ==> ext[d] == 1 || str[d] >= 0
    ensures 0 <= Dot(i, str) <= Dot(Last(ext), str)
  {
    if i != [] {
      assert Last(ext)[1..] == Last(ext[1..]);
      TermUpToLast(i[0], ext[0], str[0]);
      DotUpToLast(i[1..], ext[1..], str[1..]);
    }
  }

  lemma ByteRange(at: int, last: int, size: nat)
    requires 0 <= at <= last
    ensures 0 <= at * size && at * size + size <= (last + 1) * size
  {
    Distribute(last + 1, at + 1, size);
    Distribute(at, 1, size);
    assert (last - at) * size >= 0;
  }

  lemma LongEnoughElement<T>(src: seq<T>, ext: seq<int>, str: seq<int>, size: nat, k: int)
    requires Positive(ext) && |str| == |ext| && LongEnough(src, ext, str, size) && 0 <= k < Product(ext)
    ensures Inbounds(src, ext, str, size, k)
  {
    LinOfDigits(k, ext);
    DotUpToLast(Digits(k, ext), ext, str);
    ByteRange(Dot(Digits(k, ext), str), Dot(Last(ext), str), size);
  }

  lemma InboundsElement<T>(src: seq<T>, ext: seq<int>, str: seq<int>, size: nat, i: seq<int>)
    requires Positive(ext) && |str| == |ext| && AllInbounds(src, ext, str, size) && InBox(i, ext)
    ensures 0 <= Dot(i, str) * size && Dot(i, str) * size + size <= |src|
  {
    DigitsOfLin(i, ext);
    assert Inbounds(src, ext, str, size, Lin(i, ext));
  }

  lemma Sign(a: int, size: nat)
    requires size >= 1 && 0 <= a * size
    ensures a >= 0
  {
  }

  lemma StrideMustNotBeNegative<T>(src: seq<T>, ext: seq<int>, str: seq<int>, size: nat, d: nat)
    requires Positive(ext) && |str| == |ext| && AllInbounds(src, ext, str, size) && size >= 1 && d < |ext| && ext[d] > 1
    ensures str[d] >= 0
  {
    DotOfUnit(ext, str, d);
    assert InBox(Unit(ext, d), ext);
    InboundsElement(src, ext, str, size, Unit(ext, d));
    Sign(str[d], size);
  }

  /** Packing stays inside the source exactly when no stride of a dimension of extent above
      1 is negative and the source reaches as far as the last element. */
  lemma InboundsIff<T>(src: seq<T>, ext: seq<int>, str: seq<int>, size: nat)
    requires Positive(ext) && |str| == |ext| && size >= 1
    ensures AllInbounds(src, ext, str, size) <==> LongEnough(src, ext, str, size)
  {
    if LongEnough(src, ext, str, size) {
      forall k | 0 <= k < Product(ext) ensures Inbounds(src, ext, str, size, k) {
        LongEnoughElement(src, ext, str, size, k);
      }
    }
    if AllInbounds(src, ext, str, size) {
      forall d | 0 <= d < |ext| ensures ext[d] == 1 || str[d] >= 0 {
        if ext[d] > 1 { StrideMustNotBeNegative(src, ext, str, size, d); }
      }
      assert InBox(Last(ext), ext);
      InboundsElement(src, ext, str, size, Last(ext));
      Distribute(Dot(Last(ext), str), 1, size);
    }
  }

  lemma AtMost(last: int, n: int, size: nat)
    requires size >= 1
    ensures (last + 1) * size <= n * size <==> last < n
  {
    Distribute(n, last + 1, size);
    MulStep(n - (last + 1), size);
  }

  /** `write` checks the extents and nothing else, and stages exactly product(extents)
      elements.  Packing what it staged then stays inside if and only if no stride that
      matters is negative and the last element lies among the staged ones. */
  lemma StagedInboundsIff<T>(src: seq<T>, ext: seq<int>, str: seq<int>, size: nat)
    requires Positive(ext) && |str| == |ext| && size >= 1 && |src| == Product(ext) * size
    ensures AllInbounds(src, ext, Resolved(str, ext), size) <==>
      && (forall d :: 0 <= d < |ext| ==> ext[d] == 1 || str[d] >= 0)
      && Dot(Last(ext), Resolved(str, ext)) < Product(ext)
  {
    InboundsIff(src, ext, Resolved(str, ext), size);
    AtMost(Dot(Last(ext), Resolved(str, ext)), Product(ext), size);
    ResolvedSigns(str, ext);
  }

  /** Resolving a stride does not change whether it is negative. */
  lemma {:induction false} ResolvedSigns(str: seq<int>, ext: seq<int>)
    requires |str| == |ext| && Positive(ext)
    ensures forall d :: 0 <= d < |ext| ==> (Resolved(str, ext)[d] >= 0 <==> str[d] >= 0)
  {
    if ext != [] {
      ProductPositive(ext[1..]);
      ResolvedSigns(str[1..], ext[1..]);
    }
  }

  /** A 2 x 2 array whose rows are 4 elements apart: `write` accepts the shape, and stages 16
      bytes of it. */
  const PADDED_ROWS: Shape := ShapeData(2, [2, 2, 0, 0, 0, 0, 0], [4, 1, 0, 0, 0, 0, 0])

  lemma PaddedRowsFacts()
    ensures Extents(PADDED_ROWS) == [2, 2] && Strides(PADDED_ROWS) == [4, 1] && Total(PADDED_ROWS) == 4
    ensures Product([2, 2]) == 4 && Resolved([4, 1], [2, 2]) == [4, 1] && Last([2, 2]) == [1, 1] && Dot([1, 1], [4, 1]) == 5
  {
    assert [2, 2][1..] == [2] && [2][1..] == [] && Product([2]) == 2;
    assert [4, 1][1..] == [1] && [1][1..] == [] && [1, 1][1..] == [1];
    assert Resolved([1], [2]) == [1] && Dot([1], [1]) == 1;
  }

  /** Packing it reads behind the staged bytes. */
  lemma PaddedRowsEscape<T>(src: seq<T>)
    requires |src| == 16
    ensures Total(PADDED_ROWS) * 4 == |src| && PackOutcome(src, PADDED_ROWS, 4) == None
  {
    PaddedRowsFacts();
    StagedInboundsIff(src, [2, 2], [4, 1], 4);
  }

  /** What one round of the packing loop achieves. */
  lemma PackOne<T>(src: seq<T>, ext: seq<int>, weights: seq<int>, size: nat, e: nat)
    requires Positive(ext) && |weights| == |ext| && e < Product(ext) && Inbounds(src, ext, weights, size, e)
    ensures var at := Dot(Digits(e, ext), weights);
      Packed(src, ext, weights, size, e + 1) == Packed(src, ext, weights, size, e) + src[at * size..at * size + size]
  {
  }

  /** Appending element after element, with an odometer over the box.  The source does not
      check where it reads; the model stops where that is outside. */
  method PackLoop<T>(src: seq<T>, ext: seq<int>, weights: seq<int>, size: nat) returns (packed: Option<seq<T>>)
    requires Positive(ext) && |weights| == |ext|
    ensures packed == if AllInbounds(src, ext, weights, size) then Some(Packed(src, ext, weights, size, Count(ext))) else None
  {
    ProductPositive(ext);
    var count := Product(ext);
    var done: seq<T> := [];
    var idx := Origin(ext);
    var e := 0;
    while e < count
      invariant 0 <= e <= count && idx[..] == Digits(if e < count then e else 0, ext)
      invariant done == Packed(src, ext, weights, size, e)
      invariant forall k :: 0 <= k < e ==> Inbounds(src, ext, weights, size, k)
    {
      var at := Offset(idx[..], weights);
      if at * size < 0 || at * size + size > |src| {
        assert !Inbounds(src, ext, weights, size, e);
        return None;
      }
      PackOne(src, ext, weights, size, e);
      done := done + src[at * size..at * size + size];
      TickOnDigits(e, ext);
      Advance(idx, ext);
      e := e + 1;
    }
    return Some(done);
  }

  /** What packing delivers: nothing for an empty shape, else the closed-form gather, if it
      stays inside the source. */
  function PackOutcome<T>(src: seq<T>, shape: Shape, size: nat): Option<seq<T>> {
    var ext := Extents(shape);
    if Total(shape) == 0 || size == 0 || !Positive(ext) then Some([])
    else if AllInbounds(src, ext, Resolved(Strides(shape), ext), size)
    then Some(Packed(src, ext, Resolved(Strides(shape), ext), size, Count(ext)))
    else None
  }

  /** `pack_row_major`; None where the code would read outside the source. */
  method PackRowMajor<T>(src: seq<T>, shape: Shape, size: nat) returns (packed: Option<seq<T>>)
    ensures packed == PackOutcome(src, shape, size)
  {
    var count := TotalElements(shape);
    if count == 0 || size == 0 { return Some([]); }
    var strides := ResolveStrides(Strides(shape), Extents(shape));
    packed := PackLoop(src, Extents(shape), strides[..], size);
  }

  /** Element `e` of the packed array is the element at the sum of digit times stride. */
  lemma PackedAt<T>(src: seq<T>, ext: seq<int>, str: seq<int>, size: nat, n: nat, e: nat)
    requires Positive(ext) && |str| == |ext| && AllInbounds(src, ext, str, size) && e < n <= Product(ext)
    ensures |Packed(src, ext, str, size, n)| == n * size && 0 <= e * size && e * size + size <= n * size
    ensures var at := Dot(Digits(e, ext), str) * size;
      0 <= at && at + size <= |src| && Packed(src, ext, str, size, n)[e * size..e * size + size] == src[at..at + size]
  {
    assert Inbounds(src, ext, str, size, e);
    var piece := Piece(src, ext, str, size);
    forall k: nat | k < n ensures |piece(k)| == size {
      assert Inbounds(src, ext, str, size, k);
    }
    CollectLength(piece, n, size);
    CollectLength(piece, e, size);
    CollectFrom(piece, n, e);
  }

  /** What packing a usable shape delivers: the element with multi-index `i` stands at its
      row-major position and comes from the sum of index times stride in use. */
  lemma PackDelivers<T>(src: seq<T>, shape: Shape, size: nat, i: seq<int>)
    requires 1 <= shape.rank <= MAX_RANK && size >= 1 && InBox(i, Extents(shape))
    ensures Positive(Extents(shape))
    ensures var r, to, from := PackOutcome(src, shape, size), Lin(i, Extents(shape)), Dot(i, Resolved(Strides(shape), Extents(shape)));
      r.Some? ==>
        && |r.value| == Product(Extents(shape)) * size
        && 0 <= to * size && to * size + size <= |r.value| && 0 <= from * size && from * size + size <= |src|
        && r.value[to * size..to * size + size] == src[from * size..from * size + size]
  {
    var ext := Extents(shape);
    ProductPositive(ext);
    DigitsOfLin(i, ext);
    var str := Resolved(Strides(shape), ext);
    if AllInbounds(src, ext, str, size) {
      InboundsElement(src, ext, str, size, i);
      PackedAt(src, ext, str, size, Product(ext), Lin(i, ext));
    }
  }

  /** With row-major strides piece `k` is the k-th slice of the source. */
  lemma RowMajorPiece<T>(src: seq<T>, ext: seq<int>, size: nat, k: nat)
    requires Positive(ext) && k < Product(ext) && Product(ext) * size <= |src|
    ensures 0 <= k * size && (k + 1) * size == k * size + size <= |src|
    ensures Piece(src, ext, RowStrides(ext), size)(k) == src[k * size..k * size + size]
  {
    PrefixFits(Product(ext), k, size);
    PrefixFits(Product(ext), k + 1, size);
    Distribute(k, 1, size);
    LinOfDigits(k, ext);
    LinIsDot(Digits(k, ext), ext);
  }

  /** With row-major strides the gather is the identity. */
  lemma {:induction false} RowMajorPackIsIdentity<T>(src: seq<T>, ext: seq<int>, size: nat, n: nat)
    requires Positive(ext) && n <= Product(ext) && Product(ext) * size <= |src|
    ensures 0 <= n * size <= |src| && Packed(src, ext, RowStrides(ext), size, n) == src[..n * size]
  {
    if n > 0 {
      RowMajorPackIsIdentity(src, ext, size, n - 1);
      RowMajorPiece(src, ext, size, n - 1);
      CollectNext(src, Piece(src, ext, RowStrides(ext), size), n, (n - 1) * size, size);
    }
  }

  /** A prefix and the slice behind it make the longer prefix. */
  lemma CollectNext<T>(src: seq<T>, piece: nat -> seq<T>, n: nat, at: nat, size: nat)
    requires n > 0 && at + size <= |src| && Collect(piece, n - 1) == src[..at] && piece(n - 1) == src[at..at + size]
    ensures Collect(piece, n) == src[..at + size]
  {
    SplitPrefix(src, at, at + size);
  }

  lemma PrefixFits(all: int, n: nat, size: nat)
    requires n <= all
    ensures 0 <= n * size <= all * size
  {
    Distribute(all, n, size);
    NotNegative(all - n, size);
    NotNegative(n, size);
  }

  lemma SplitPrefix<T>(s: seq<T>, a: nat, b: nat)
    requires a <= b <= |s|
    ensures s[..b] == s[..a] + s[a..b]
  {
  }

  /** The largest row-major position is the last one. */
  lemma LastPosition(ext: seq<int>)
    requires Positive(ext)
    ensures Dot(Last(ext), RowStrides(ext)) + 1 == Product(ext)
  {
    assert InBox(Last(ext), ext);
    LinIsDot(Last(ext), ext);
    ProductPositive(ext);
    var m := Product(ext) - 1;
    LinOfDigits(m, ext);
    LinIsDot(Digits(m, ext), ext);
    RowStridesNonNegative(ext);
    DotBounds(Digits(m, ext), ext, RowStrides(ext));
    DigitsOfLin(Last(ext), ext);
  }

  lemma {:induction false} RowStridesNonNegative(ext: seq<int>)
    requires Positive(ext)
    ensures forall d :: 0 <= d < |ext| ==> RowStrides(ext)[d] >= 0
  {
    if ext != [] {
      ProductPositive(ext[1..]);
      RowStridesNonNegative(ext[1..]);
    }
  }

  /** With row-major strides the gather stays inside exactly a source of full length. */
  lemma RowMajorInboundsIff<T>(src: seq<T>, ext: seq<int>, size: nat)
    requires Positive(ext) && size >= 1
    ensures AllInbounds(src, ext, RowStrides(ext), size) <==> Product(ext) * size <= |src|
  {
    InboundsIff(src, ext, RowStrides(ext), size);
    LastPosition(ext);
    RowStridesNonNegative(ext);
  }

  /** The payload that the encoder sees is the closed-form gather on both paths: the
      zero-copy path hands over the very bytes that packing would have produced, and leaves
      the source exactly when packing would. */
  method EncodePayload<T>(src: seq<T>, shape: Shape, size: nat) returns (payload: Option<seq<T>>)
    requires Total(shape) > 0 && size > 0  // both are checked before
    ensures payload == PackOutcome(src, shape, size)
  {
    var contiguous := IsContiguous(shape);
    if contiguous {
      var ext := Extents(shape);
      RowMajorInboundsIff(src, ext, size);
      var count := TotalElements(shape);
      if count * size > |src| { return None; }
      RowMajorPackIsIdentity(src, ext, size, count);
      payload := Some(src[..count * size]);
    } else {
      payload := PackRowMajor(src, shape, size);
    }
  }

  /** One step along dimension `d`. */
  function Unit(ext: seq<int>, d: nat): (r: seq<int>)
    requires d < |ext|
    ensures |r| == |ext|
  {
    if d == 0 then [1] + seq(|ext| - 1, _ => 0) else [0] + Unit(ext[1..], d - 1)
  }

  lemma {:induction false} DotOfUnit(ext: seq<int>, s: seq<int>, d: nat)
    requires d < |ext| == |s|
    ensures Dot(Unit(ext, d), s) == s[d]
    ensures forall j :: 0 <= j < |ext| ==> Unit(ext, d)[j] == if j == d then 1 else 0
  {
    if d == 0 {
      assert Unit(ext, 0)[1..] == seq(|ext| - 1, _ => 0);
      DotOfZeros(seq(|ext| - 1, _ => 0), s[1..]);
    } else {
      assert Unit(ext, d)[1..] == Unit(ext[1..], d - 1);
      DotOfUnit(ext[1..], s[1..], d - 1);
    }
  }

  lemma {:induction false} DotOfZeros(z: seq<int>, s: seq<int>)
    requires |z| == |s| && forall d :: 0 <= d < |z| ==> z[d] == 0
    ensures Dot(z, s) == 0
  {
    if z != [] { DotOfZeros(z[1..], s[1..]); }
  }

  /** The gather delivers the source as it is. */
  ghost predicate IsIdentity(ext: seq<int>, s: seq<int>)
    requires Positive(ext) && |s| == |ext|
  {
    forall e :: 0 <= e < Product(ext) ==> Dot(Digits(e, ext), s) == e
  }

  predicate RowMajorWhereItMatters(ext: seq<int>, s: seq<int>)
    requires |s| == |ext|
  {
    forall d :: 0 <= d < |ext| ==> ext[d] == 1 || s[d] == RowStrides(ext)[d]
  }

  /** Exactly when is the gather the identity: the strides may differ from the row-major
      ones only in dimensions of extent 1. */
  lemma IdentityIff(ext: seq<int>, s: seq<int>)
    requires Positive(ext) && |s| == |ext|
    ensures IsIdentity(ext, s) <==> RowMajorWhereItMatters(ext, s)
  {
    if IsIdentity(ext, s) {
      forall d | 0 <= d < |ext| ensures ext[d] == 1 || s[d] == RowStrides(ext)[d] {
        if ext[d] > 1 { IdentityForcesStride(ext, s, d); }
      }
    }
    if RowMajorWhereItMatters(ext, s) {
      forall e | 0 <= e < Product(ext) ensures Dot(Digits(e, ext), s) == e {
        StridesGiveIdentity(ext, s, e);
      }
    }
  }

  lemma StridesGiveIdentity(ext: seq<int>, s: seq<int>, e: int)
    requires Positive(ext) && |s| == |ext| && RowMajorWhereItMatters(ext, s) && 0 <= e < Product(ext)
    ensures Dot(Digits(e, ext), s) == e
  {
    LinOfDigits(e, ext);
    LinIsDot(Digits(e, ext), ext);
    SameDot(Digits(e, ext), s, RowStrides(ext));
  }

  lemma IdentityForcesStride(ext: seq<int>, s: seq<int>, d: nat)
    requires Positive(ext) && |s| == |ext| && d < |ext| && ext[d] > 1
    requires IsIdentity(ext, s)
    ensures s[d] == RowStrides(ext)[d]
  {
    DotOfUnit(ext, s, d);
    DotOfUnit(ext, RowStrides(ext), d);
    var u := Unit(ext, d);
    assert InBox(u, ext);
    DigitsOfLin(u, ext);
    LinIsDot(u, ext);
    assert Dot(Digits(Lin(u, ext), ext), s) == Lin(u, ext);
  }

  lemma {:induction false} SameDot(i: seq<int>, s: seq<int>, t: seq<int>)
    requires |i| == |s| == |t| && forall d :: 0 <= d < |i| ==> i[d] == 0 || s[d] == t[d]
    ensures Dot(i, s) == Dot(i, t)
  {
    if i != [] { SameDot(i[1..], s[1..], t[1..]); }
  }
}
