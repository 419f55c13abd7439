/** `parse_dream_3D_volume_element`: the volume element read back from a
    DREAM.3D result file, given the arrays the file holds under the
    "SyntheticVolumeDataContainer". */
module VolumeElementParser {
  import opened Wrappers
  import opened NdArrays
  import opened Geometry

  /** `CellData/FeatureIds`: a four-dimensional integer array of shape
      `(nz, ny, nx, nc)`, indexed `[z][y][x][component]`. The shape is kept
      beside the cells so that an axis of length zero still has a length. */
  datatype FeatureIdArray = FeatureIdArray(cells: seq<seq<seq<seq<int>>>>, nz: nat, ny: nat, nx: nat, nc: nat)

  predicate WellShaped(f: FeatureIdArray) {
    && HasShape3(f.cells, f.nz, f.ny, f.nx)
    && forall z, y, x :: 0 <= z < f.nz && 0 <= y < f.ny && 0 <= x < f.nx ==> |f.cells[z][y][x]| == f.nc
  }

  /** The arrays of the result file the parser reads: `_SIMPL_GEOMETRY/DIMENSIONS`
      and `SPACING`, `CellData/FeatureIds`, `CellEnsembleData/PhaseName` (one
      row of fields per phase), and `Grain Data/Phases` and `EulerAngles` (one
      entry per grain). Entry 0 of the three tables is DREAM.3D's reserved entry. */
  datatype ResultArrays = ResultArrays(
    dimensions: seq<int>,
    spacing: seq<real>,
    featureIds: FeatureIdArray,
    phaseName: seq<seq<string>>,
    phases: seq<int>,
    eulerAngles: seq<seq<real>>)

  datatype Orientations = Orientations(
    kind: string,
    eulerDegrees: bool,
    eulerAngles: seq<seq<real>>,
    unitCellAlignment: map<string, string>)

  /** The volume element dictionary the parser returns. */
  datatype VolumeElement = VolumeElement(
    gridSize: seq<int>,
    size: seq<real>,
    elementMaterialIdx: seq<seq<seq<int>>>,
    constituentMaterialIdx: seq<int>,
    constituentPhaseLabel: seq<string>,
    materialHomog: seq<string>,
    orientations: Orientations)

  /** `FeatureIds[..., 0] - 1`: the first component of every voxel, made zero-indexed. */
  function ZeroIndexedIds(f: FeatureIdArray): seq<seq<seq<int>>>
    requires WellShaped(f) && f.nc > 0
  {
    seq(f.nz, z requires 0 <= z < f.nz =>
      seq(f.ny, y requires 0 <= y < f.ny =>
        seq(f.nx, x requires 0 <= x < f.nx => f.cells[z][y][x][0] - 1)))
  }

  /** numpy's elementwise `a - 1`. */
  function MinusOne(a: seq<int>): seq<int> {
    seq(|a|, k requires 0 <= k < |a| => a[k] - 1)
  }

  /** `phase_names[i][0].decode()`: the first field of row `i`, with numpy's
      wrap-around for a negative `i`; `None` where numpy raises `IndexError`. */
  function PhaseLabel(names: seq<seq<string>>, i: int): Option<string> {
    match NumpyAt(names, i)
    case None => None
    case Some(row) => if |row| == 0 then None else Some(row[0])
  }

  /** The list comprehension over the phase indices; the first index without
      a label raises `IndexError`. */
  function PhaseLabels(names: seq<seq<string>>, indices: seq<int>): (r: Result<seq<string>>)
    ensures r.Ok? ==> |r.value| == |indices|
  {
    if exists k :: 0 <= k < |indices| && PhaseLabel(names, indices[k]).None? then Err(IndexError)
    else Ok(seq(|indices|, k requires 0 <= k < |indices| => PhaseLabel(names, indices[k]).value))
  }

  lemma NonEmptyVolume<T>(g: seq<seq<seq<T>>>, a: nat, b: nat, c: nat)
    requires HasShape3(g, a, b, c) && a > 0 && b > 0 && c > 0
    ensures |Flat3(g)| > 0
  {
    Flat3Length(g, a, b, c);
    assert b * c > 0;
    assert a * (b * c) > 0;
  }

  /** The voxels' material indices: the zero-indexed feature ids with the axes
      reversed, so that the array is indexed `[x][y][z]`. */
  function MaterialIndices(f: FeatureIdArray): seq<seq<seq<int>>>
    requires WellShaped(f) && f.nc > 0
  {
    Transpose210(ZeroIndexedIds(f), f.nz, f.ny, f.nx)
  }

  /** `parse_dream_3D_volume_element` after the arrays are read, or the
      exception numpy raises: `IndexError` when FeatureIds has no component to
      take, `ValueError` for the `max()` of an empty volume, `IndexError` for a
      phase index with no name. */
  function ParseVolumeElement(arrays: ResultArrays): Result<VolumeElement>
    requires WellShaped(arrays.featureIds)
  {
    var f := arrays.featureIds;
    var gridSize := arrays.dimensions;
    var size := SizeFromSpacing(arrays.spacing, gridSize);
    if f.nc == 0 then Err(IndexError)
    else
      var materialIdx := MaterialIndices(f);
      if f.nz == 0 || f.ny == 0 || f.nx == 0 then Err(ValueError)
      else
        NonEmptyVolume(materialIdx, f.nx, f.ny, f.nz);
        var numGrains := SeqMax(Flat3(materialIdx)) + 1;
        var phaseNames := DropFirst(arrays.phaseName);
        var phaseIdx := MinusOne(DropFirst(arrays.phases));
        var labels :- PhaseLabels(phaseNames, phaseIdx);
        Ok(VolumeElement(
          gridSize,
          size,
          materialIdx,
          Arange(numGrains),
          labels,
          Repeat("SX", numGrains),
          Orientations("euler", false, DropFirst(arrays.eulerAngles), map["x" := "a"])))
  }

  /** Whether every grain's phase index names a phase. */
  predicate LabelsResolve(arrays: ResultArrays) {
    PhaseLabels(DropFirst(arrays.phaseName), MinusOne(DropFirst(arrays.phases))).Ok?
  }

  /** The parser fails exactly when FeatureIds has no component
      (`IndexError`), when the volume has no voxel (`ValueError`) or when a
      grain's phase has no name (`IndexError`), checked in that order. */
  lemma ParseFailures(arrays: ResultArrays)
    requires WellShaped(arrays.featureIds)
    ensures var f := arrays.featureIds;
            var empty := f.nz == 0 || f.ny == 0 || f.nx == 0;
            && (ParseVolumeElement(arrays).Err? <==> f.nc == 0 || empty || !LabelsResolve(arrays))
            && (f.nc == 0 ==> ParseVolumeElement(arrays) == Err(IndexError))
            && (f.nc > 0 && empty ==> ParseVolumeElement(arrays) == Err(ValueError))
            && (f.nc > 0 && !empty && !LabelsResolve(arrays) ==> ParseVolumeElement(arrays) == Err(IndexError))
  {
  }

  /** Each voxel's material index is its feature id minus one, read from the
      first component with the axes reversed: a `(Z, Y, X, 1)` input gives an
      `(X, Y, Z)` output with `out[x][y][z] == FeatureIds[z][y][x][0] - 1`. */
  lemma MaterialIndexLayout(arrays: ResultArrays)
    requires WellShaped(arrays.featureIds)
    requires ParseVolumeElement(arrays).Ok?
    ensures var f := arrays.featureIds;
            var e := ParseVolumeElement(arrays).value.elementMaterialIdx;
            && f.nc > 0
            && HasShape3(e, f.nx, f.ny, f.nz)
            && forall x, y, z :: 0 <= x < f.nx && 0 <= y < f.ny && 0 <= z < f.nz ==>
                 e[x][y][z] == f.cells[z][y][x][0] - 1
  {
  }

  /** The grain count is one more than the largest material index, or zero
      when that is negative: every voxel's index is below it and, when it is
      positive, some voxel holds the last grain. The grains are numbered
      `0 .. n-1` and each has the homogenisation "SX". */
  lemma GrainCount(arrays: ResultArrays)
    requires WellShaped(arrays.featureIds)
    requires ParseVolumeElement(arrays).Ok?
    ensures var f := arrays.featureIds;
            var ve := ParseVolumeElement(arrays).value;
            var e := ve.elementMaterialIdx;
            var n := |ve.constituentMaterialIdx|;
            && HasShape3(e, f.nx, f.ny, f.nz)
            && (forall x, y, z :: 0 <= x < f.nx && 0 <= y < f.ny && 0 <= z < f.nz ==> e[x][y][z] < n)
            && (n > 0 ==> exists x, y, z :: 0 <= x < f.nx && 0 <= y < f.ny && 0 <= z < f.nz && e[x][y][z] == n - 1)
            && (forall k :: 0 <= k < n ==> ve.constituentMaterialIdx[k] == k)
            && ve.materialHomog == seq(n, _ => "SX")
  {
    var f := arrays.featureIds;
    var ve := ParseVolumeElement(arrays).value;
    var e := ve.elementMaterialIdx;
    assert e == MaterialIndices(f);
    NonEmptyVolume(e, f.nx, f.ny, f.nz);
    var m := SeqMax(Flat3(e));
    assert ve.constituentMaterialIdx == Arange(m + 1);
    var n := |ve.constituentMaterialIdx|;
    forall x, y, z | 0 <= x < f.nx && 0 <= y < f.ny && 0 <= z < f.nz
      ensures e[x][y][z] < n
    {
      Flat3Members(e, f.nx, f.ny, f.nz, e[x][y][z]);
    }
    if n > 0 {
      Flat3Members(e, f.nx, f.ny, f.nz, m);
    }
  }

  /** Entry 0 of each per-grain table never reaches the volume element: the
      orientations are `EulerAngles[1:]`, and there is one phase label per
      entry of `Phases[1:]`. */
  lemma ReservedEntriesDropped(arrays: ResultArrays)
    requires WellShaped(arrays.featureIds)
    requires ParseVolumeElement(arrays).Ok?
    ensures var ve := ParseVolumeElement(arrays).value;
            && |ve.orientations.eulerAngles| == (if |arrays.eulerAngles| == 0 then 0 else |arrays.eulerAngles| - 1)
            && (forall i :: 0 <= i < |ve.orientations.eulerAngles| ==> ve.orientations.eulerAngles[i] == arrays.eulerAngles[i + 1])
            && |ve.constituentPhaseLabel| == (if |arrays.phases| == 0 then 0 else |arrays.phases| - 1)
  {
  }

  /** Which row of `PhaseName` the label of phase value `v` is read from: the
      `[1:]` of both tables and the `- 1` cancel, so a positive phase reads
      row `v`; a phase of 0 or below becomes a negative index into
      `PhaseName[1:]`, which numpy counts from the end, landing on row
      `len(PhaseName) + v - 1`. */
  function NameRow(names: seq<seq<string>>, v: int): int {
    if v >= 1 then v else |names| + v - 1
  }

  /** The label lookup for grain i, stated over the file's own tables: it is
      the first field of row `NameRow(PhaseName, Phases[i+1])` when that row
      exists past the reserved row 0 and has a field, and there is no label
      otherwise (`IndexError`). In particular a phase of 0 wraps to the last
      name, and a phase of `len(PhaseName)` or more has no name. */
  lemma PhaseLabelOffsets(arrays: ResultArrays, i: nat)
    requires i + 1 < |arrays.phases|
    ensures var v := arrays.phases[i + 1];
            var names := arrays.phaseName;
            var j := NameRow(names, v);
            var found := PhaseLabel(DropFirst(names), MinusOne(DropFirst(arrays.phases))[i]);
            && (1 <= j < |names| && |names[j]| > 0 ==> found == Some(names[j][0]))
            && (1 <= j < |names| && |names[j]| == 0 ==> found.None?)
            && (!(1 <= j < |names|) ==> found.None?)
            && (v == 0 && |names| >= 2 ==> j == |names| - 1)
            && (v >= |names| ==> found.None?)
  {
    assert DropFirst(arrays.phases)[i] == arrays.phases[i + 1];
    var names := arrays.phaseName;
    if |names| > 0 {
      assert forall k :: 0 <= k < |names| - 1 ==> DropFirst(names)[k] == names[k + 1];
    }
  }

  /** What a successful parse labels grain i with: the first field of row
      `NameRow(PhaseName, Phases[i+1])` of the file's phase names, a row past
      the reserved row 0. So a phase `v` of 1 or more is labelled
      `PhaseName[v][0]`, and a phase of 0 gets the last name. */
  lemma ParsedPhaseLabel(arrays: ResultArrays, i: nat)
    requires WellShaped(arrays.featureIds)
    requires ParseVolumeElement(arrays).Ok?
    requires i < |ParseVolumeElement(arrays).value.constituentPhaseLabel|
    ensures i + 1 < |arrays.phases|
    ensures var names := arrays.phaseName;
            var j := NameRow(names, arrays.phases[i + 1]);
            && 1 <= j < |names| && |names[j]| > 0
            && ParseVolumeElement(arrays).value.constituentPhaseLabel[i] == names[j][0]
  {
    var idx := MinusOne(DropFirst(arrays.phases));
    assert Some(ParseVolumeElement(arrays).value.constituentPhaseLabel[i]) == PhaseLabel(DropFirst(arrays.phaseName), idx[i]);
    PhaseLabelOffsets(arrays, i);
  }

  /** The parsed size undoes into the file's spacing: the pipeline builders'
      `size / grid_size` gives back `SPACING` for a grid without a zero
      dimension. */
  lemma ParsedSizeRoundTrip(arrays: ResultArrays)
    requires WellShaped(arrays.featureIds)
    requires ParseVolumeElement(arrays).Ok?
    requires |arrays.spacing| == |arrays.dimensions|
    requires forall k :: 0 <= k < |arrays.dimensions| ==> arrays.dimensions[k] != 0
    ensures var ve := ParseVolumeElement(arrays).value;
            ve.gridSize == arrays.dimensions && ResolutionFromSize(ve.size, ve.gridSize) == Ok(arrays.spacing)
  {
    SpacingRoundTrip(arrays.spacing, arrays.dimensions);
  }
}
