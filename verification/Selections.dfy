/** Bounding boxes as they cross the C interface, and when two of them select the same
    sub-region. */
module Selections {
  import opened Common

  /** The arrays always have MAX_RANK entries; only the first `rank` of them matter. */
  datatype BoxData = BoxData(rank: int, offsets: seq<int>, extents: seq<int>, strides: seq<int>)

  type Box = b: BoxData | |b.offsets| == |b.extents| == |b.strides| == MAX_RANK
    witness BoxData(0, [0, 0, 0, 0, 0, 0, 0], [0, 0, 0, 0, 0, 0, 0], [0, 0, 0, 0, 0, 0, 0])

  /** None is the full record. */
  type Selection = Option<Box>

  /** Number of leading array entries that carry meaning. */
  function Dims(rank: int): (n: nat)
    ensures n <= MAX_RANK
    ensures 0 <= rank <= MAX_RANK ==> n == rank
  {
    if rank <= 0 then 0 else if rank <= MAX_RANK then rank else MAX_RANK
  }

  datatype Region = Everything | Window(rank: int, offsets: seq<int>, extents: seq<int>, strides: seq<int>)

  /** The sub-region that a selection addresses: what the driver gets to see of it. */
  function RegionOf(sel: Selection): Region {
    match sel
    case None => Everything
    case Some(b) => Window(b.rank, b.offsets[..Dims(b.rank)], b.extents[..Dims(b.rank)], b.strides[..Dims(b.rank)])
  }

  predicate Same(a: Selection, b: Selection) {
    RegionOf(a) == RegionOf(b)
  }

  /** Two selections are the same when both are the full record, or the ranks and the leading
      entries of all three arrays agree, 7 of them for a rank beyond that. */
  lemma SameIff(a: Selection, b: Selection)
    ensures a.None? || b.None? ==> (Same(a, b) <==> a.None? && b.None?)
    ensures a.Some? && b.Some? ==>
      var n := if a.value.rank < 0 then 0 else if a.value.rank < 7 then a.value.rank else 7;
      (Same(a, b) <==> a.value.rank == b.value.rank && forall d :: 0 <= d < n ==>
        && a.value.offsets[d] == b.value.offsets[d] && a.value.extents[d] == b.value.extents[d]
        && a.value.strides[d] == b.value.strides[d])
  {
    if a.Some? && b.Some? && a.value.rank == b.value.rank {
      var x: BoxData, y: BoxData := a.value, b.value;
      var n := Dims(x.rank);
      SamePrefix(x.offsets, y.offsets, n);
      SamePrefix(x.extents, y.extents, n);
      SamePrefix(x.strides, y.strides, n);
    }
  }

  lemma SamePrefix(s: seq<int>, t: seq<int>, n: nat)
    requires n <= |s| && n <= |t|
    ensures s[..n] == t[..n] <==> forall d :: 0 <= d < n ==> s[d] == t[d]
  {
    if s[..n] == t[..n] {
      forall d | 0 <= d < n ensures s[d] == t[d] {
        assert s[..n][d] == t[..n][d];
      }
    }
  }

  /** `bbox_same` decides equality of regions, whatever the unused array entries hold. */
  method BoxSame(a: Selection, b: Selection) returns (same: bool)
    ensures same <==> Same(a, b)
  {
    if a.None? != b.None? { return false; }
    if a.None? { return true; }
    var x: BoxData, y: BoxData := a.value, b.value;
    if x.rank != y.rank { return false; }
    SameIff(a, b);
    var d := 0;
    while d < x.rank && d < MAX_RANK
      invariant 0 <= d <= Dims(x.rank)
      invariant forall j :: 0 <= j < d ==>
        x.offsets[j] == y.offsets[j] && x.extents[j] == y.extents[j] && x.strides[j] == y.strides[j]
    {
      if x.offsets[d] != y.offsets[d] || x.extents[d] != y.extents[d] || x.strides[d] != y.strides[d] { return false; }
      d := d + 1;
    }
    return true;
  }
}
