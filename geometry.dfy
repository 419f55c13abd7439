/** Voxel geometry arithmetic, with floats read as reals. Both directions zip two
    lists, so a longer list is cut to the length of the shorter one, as Python's
    `zip` does. */
module Geometry {
  import opened Wrappers
  import opened NdArrays

  /** `size = [i * j for i, j in zip(spacing, grid_size)]`: the physical extent
      of each axis is the voxel spacing times the voxel count. */
  function SizeFromSpacing(spacing: seq<real>, gridSize: seq<int>): (size: seq<real>)
    ensures |size| == Min(|spacing|, |gridSize|)
    ensures forall k :: 0 <= k < |size| ==> size[k] == spacing[k] * gridSize[k] as real
  {
    var n := Min(|spacing|, |gridSize|);
    seq(n, k requires 0 <= k < n => spacing[k] * gridSize[k] as real)
  }

  /** `resolution = [i / j for i, j in zip(size, grid_size)]`: the voxel spacing
      that makes `grid_size` voxels span `size`. A zero grid dimension among
      the zipped pairs raises `ZeroDivisionError`. */
  function ResolutionFromSize(size: seq<real>, gridSize: seq<int>): (r: Result<seq<real>>)
    ensures r.Ok? ==> |r.value| == Min(|size|, |gridSize|)
  {
    var n := Min(|size|, |gridSize|);
    if exists k :: 0 <= k < n && gridSize[k] == 0 then Err(ZeroDivisionError)
    else Ok(seq(n, k requires 0 <= k < n => size[k] / gridSize[k] as real))
  }

  /** A derived resolution times the grid gives back the size, axis by axis. */
  lemma ResolutionScalesGrid(size: seq<real>, gridSize: seq<int>)
    requires ResolutionFromSize(size, gridSize).Ok?
    ensures var r := ResolutionFromSize(size, gridSize).value;
            forall k :: 0 <= k < |r| ==> r[k] * gridSize[k] as real == size[k]
  {
    var r := ResolutionFromSize(size, gridSize).value;
    forall k | 0 <= k < |r|
      ensures r[k] * gridSize[k] as real == size[k]
    {
      DivideThenScale(size[k], gridSize[k] as real);
    }
  }

  lemma DivideThenScale(x: real, g: real)
    requires g != 0.0
    ensures (x / g) * g == x
  {
  }

  /** The result parser's `size` and the pipeline builders' `resolution` are
      inverse: deriving the resolution from a parsed size gives back the voxel
      spacing, for every grid without a zero dimension. */
  lemma SpacingRoundTrip(spacing: seq<real>, gridSize: seq<int>)
    requires |spacing| == |gridSize|
    requires forall k :: 0 <= k < |gridSize| ==> gridSize[k] != 0
    ensures ResolutionFromSize(SizeFromSpacing(spacing, gridSize), gridSize) == Ok(spacing)
  {
    var size := SizeFromSpacing(spacing, gridSize);
    var r := ResolutionFromSize(size, gridSize);
    assert r.Ok?;
    forall k | 0 <= k < |spacing|
      ensures r.value[k] == spacing[k]
    {
      ScaleThenDivide(spacing[k], gridSize[k] as real);
    }
    assert r.value == spacing;
  }

  lemma ScaleThenDivide(x: real, g: real)
    requires g != 0.0
    ensures (x * g) / g == x
  {
  }
}
