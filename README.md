# matflow-dream3d translation layer, modelled in Dafny

matflow-dream3d connects a microstructure "volume element" to the
DREAM.3D software, in both directions. This project models the deterministic
core of `matflow_dream3d/main.py` as pure Dafny functions, and proves lemmas
about them:

- **Result parsing** (`parse_dream_3D_volume_element`, module
  `VolumeElementParser`). It starts from the arrays a DREAM.3D result file
  holds: the grid `DIMENSIONS` and `SPACING`, the four-dimensional
  `FeatureIds`, and the `PhaseName`, `Phases` and `EulerAngles` tables. From
  them it computes:
  - the physical size;
  - the voxels' zero-based material indices, with the axes reversed;
  - the grain count and numbering;
  - the phase label of each grain;
  - the orientations.

  Each numpy error surfaces as a `Result` failure.
- **Segmentation pipeline** (`write_segment_grains_pipeline`, module
  `SegmentationPipeline`). These are the eight DREAM.3D filters that import a
  per-voxel orientation table, convert its Euler angles to quaternions and
  segment the voxels into grains. The geometry fields come from
  `grid_size`, `origin` and `size`, with their defaults.
- **Synthesis pipeline** (`generate_RVE_pipeline`, module
  `SynthesisPipeline`). These are the ten filters that generate a synthetic
  two-phase microstructure. They carry:
  - the resolution (given, or derived from the size);
  - the origin (by default (0, 0, 0));
  - the periodic flag of the two packing steps.
- **Segmentation inputs** (module `SegmentationInputs`):
  - the orientation table `write_segment_grains_orientations_file` writes:
    its header, and one row per voxel holding the phase and three angles;
  - the `textwrap.dedent` step that produces the ensemble description.

Both pipelines are modelled as a `Pipeline`: filter objects in execution
order, plus the "PipelineBuilder" metadata (module `PipelineJson`). A
pipeline renders as a JSON object keyed "0" … "n-1" and "PipelineBuilder".
Data-array paths (container, attribute matrix, array name) are their own
kind of JSON value. This is what lets the lemmas state the wiring between
steps: every array a filter reads was named by an earlier filter (the
segmentation geometry step's unused list and bounds paths aside, see
"Left out").

Shared modules:
- `Wrappers`: `Option`, `Result` and the Python exceptions that occur.
- `NdArrays`: numpy indexing, `arange`, `max`, C-order flattening, the
  (2, 1, 0) transpose and `product`.
- `Geometry`: size and resolution arithmetic over reals.
- `Decimal`: integer-to-text formatting.

## Model

| member | source | states |
|---|---|---|
| VolumeElementParser.ParseFailures | matflow_dream3d/main.py:33-40 | Parsing fails exactly when `FeatureIds` has no component (`IndexError`), the volume has no voxel (`ValueError` from `max`), or some grain's phase has no name (`IndexError`), checked in that order |
| VolumeElementParser.MaterialIndexLayout | matflow_dream3d/main.py:33-34 | A `(Z, Y, X, C)` feature-id array gives an `(X, Y, Z)` material index array with `out[x][y][z] == FeatureIds[z][y][x][0] - 1` |
| VolumeElementParser.GrainCount | matflow_dream3d/main.py:36-49 | Every voxel's index is below the grain count `n`; when `n > 0` some voxel holds grain `n - 1`; grains are numbered `0 .. n-1`; each has homogenisation "SX" |
| VolumeElementParser.ReservedEntriesDropped | matflow_dream3d/main.py:37-41 | The orientations are `EulerAngles` without entry 0 (`out[i] == EulerAngles[i+1]`), and there is one phase label per entry of `Phases` after entry 0 |
| VolumeElementParser.PhaseLabelOffsets | matflow_dream3d/main.py:37-40 | Over the file's own tables: grain i's label is the first field of `PhaseName[j]`, with `j = Phases[i+1]` for a positive phase (the two `[1:]` slices and the `- 1` cancel) and `j = len(PhaseName) + Phases[i+1] - 1` for a phase of 0 or below (numpy's wrap-around), when `1 <= j < len(PhaseName)` and that row has a field; otherwise there is no label. Phase 0 gets the last name; a phase of `len(PhaseName)` or more has none |
| VolumeElementParser.ParsedPhaseLabel | matflow_dream3d/main.py:37-40 | In a successful parse, grain i's label is `PhaseName[j][0]` for a row `j` past the reserved row 0: `j = Phases[i+1]` when that is positive, and the wrapped row `len(PhaseName) + Phases[i+1] - 1` otherwise |
| VolumeElementParser.PhaseLabels | matflow_dream3d/main.py:39-40 | The label list has one entry per phase index |
| VolumeElementParser.ParsedSizeRoundTrip | matflow_dream3d/main.py:27-29 | The parsed grid is `DIMENSIONS`, and dividing the parsed size by it gives back `SPACING` when no dimension is zero |
| Geometry.SizeFromSpacing | matflow_dream3d/main.py:29 | `zip` truncation: one size per pair of spacing and grid entries, and size k is spacing k times grid dimension k |
| Geometry.ResolutionFromSize | matflow_dream3d/main.py:122 | `zip` truncation: one resolution per pair of size and grid entries, or a `ZeroDivisionError` |
| Geometry.ResolutionScalesGrid | matflow_dream3d/main.py:122 | A derived resolution times the grid dimension gives back the size, axis by axis |
| Geometry.SpacingRoundTrip | matflow_dream3d/main.py:29 | Deriving the resolution from a parsed size gives back the spacing, for any grid without a zero dimension |
| NdArrays.Transpose210 | matflow_dream3d/main.py:34 | The (2, 1, 0) transpose swaps the lengths of axes 0 and 2 and puts entry `(k, j, i)` at `(i, j, k)` |
| NdArrays.TransposeInvolution | matflow_dream3d/main.py:34 | Transposing twice gives back the array |
| NdArrays.SeqMax | matflow_dream3d/main.py:36 | The maximum is an entry of the array and bounds every entry |
| NdArrays.Flat3Members | matflow_dream3d/main.py:36 | A value is in the flattened array exactly when some cell holds it |
| NdArrays.Flat3Length | matflow_dream3d/main.py:36 | Flattening an `(a, b, c)` array gives `a*b*c` entries |
| NdArrays.ConcatMembers | matflow_dream3d/main.py:36 | A value is in a concatenation exactly when it is in one of the parts |
| NdArrays.Arange | matflow_dream3d/main.py:47 | `arange(n)` has `max(n, 0)` entries and entry k is k |
| NdArrays.Repeat | matflow_dream3d/main.py:49 | `[x] * n` has `max(n, 0)` entries, all equal to x |
| NdArrays.ProductSplitsAtThree | matflow_dream3d/main.py:277 | `product` of a grid of three or more entries is the product of the first three times the product of the rest |
| NdArrays.ProductOfThree | matflow_dream3d/main.py:277 | The product of a three-entry grid is the product of its entries |
| SegmentationPipeline.SegmentationFailures | matflow_dream3d/main.py:119-169 | The builder fails exactly on a zero grid dimension among the zipped pairs (`ZeroDivisionError`, reported first) or on a grid, origin or size with fewer than three entries (`IndexError`) |
| SegmentationPipeline.SegmentationDescriptor | matflow_dream3d/main.py:117-392 | Every successful build is a descriptor with exactly the keys "0".."7" and "PipelineBuilder", `Number_Filters == 8`, and is wired as `DocumentWiring` states |
| SegmentationPipeline.DocumentIsDescriptor | matflow_dream3d/main.py:124-390 | The descriptor has exactly keys "0".."7" and "PipelineBuilder", and `Number_Filters == 8` |
| SegmentationPipeline.SegmentationPlacement | matflow_dream3d/main.py:136-169 | A successful build's geometry step holds the grid as `Dimensions` and its box text as `BoxDimensions`, plus the origin and the resolution; the import step's `Wizard_TupleDims` is also the grid |
| SegmentationPipeline.SegmentationLineCount | matflow_dream3d/main.py:277 | A successful build declares `product(grid_size) + 1` table lines: one per voxel, plus the header |
| SegmentationPipeline.SegmentationVoxelCount | matflow_dream3d/main.py:144-277 | A successful build's geometry has `Dimensions` x, y, z taken from the grid, and the table declares `x*y*z*product(grid_size[3:]) + 1` lines; for a three-entry grid that is one line per voxel of the geometry plus the header |
| SegmentationPipeline.ExtentLineReadsBack | matflow_dream3d/main.py:136-138 | Each extent line reads "0 to <last> (dimension: <count>)": both are digit strings, and last + 1 == count == the dimension |
| SegmentationPipeline.DocumentGeometry | matflow_dream3d/main.py:136-169 | The geometry dimensions and the table's tuple dimensions are both the grid; the box text, line count, origin and resolution are the ones given |
| SegmentationPipeline.DocumentWiring | matflow_dream3d/main.py:250-374 | The descriptor is wired: every data-array path of steps 2-6 names what an earlier step produced (the geometry step's unused list and bounds paths are not modelled) |
| SegmentationPipeline.ImportWiringFromSteps | matflow_dream3d/main.py:250-315 | The table lands in step 1's cell data in step 0's container, and step 3 stacks the table's headers 1-3 |
| SegmentationPipeline.OrientationWiringFromSteps | matflow_dream3d/main.py:289-374 | Step 4 converts step 3's "Eulers" into "quats"; step 6 reads those quaternions and the table's "Phase" column |
| SegmentationPipeline.EnsembleWiringFromSteps | matflow_dream3d/main.py:331-374 | Step 6 reads the crystal structures that step 5 imports into step 0's container; the mask path into another container is switched off |
| SegmentationPipeline.ContainerStep | matflow_dream3d/main.py:125-132 | Step 0 creates "DataContainer" |
| SegmentationPipeline.GeometryStep | matflow_dream3d/main.py:133-249 | Step 1's dimensions, box text, origin, resolution and cell matrix name |
| SegmentationPipeline.TableStep | matflow_dream3d/main.py:250-288 | Step 2 imports into the cell data, with the grid as tuple dimensions and the given line count |
| SegmentationPipeline.TableHeaders | matflow_dream3d/main.py:260-265 | The table headers are Phase, Euler1, Euler2, Euler3 |
| SegmentationPipeline.TableFormat | matflow_dream3d/main.py:258-272 | The delimiters are ", " with runs read as one, data start on line 2, the phase column is `int32_t` and the angle columns are `float` |
| SegmentationPipeline.CombineStep | matflow_dream3d/main.py:289-315 | Step 3 stacks the three Euler columns into "Eulers" |
| SegmentationPipeline.ConvertStep | matflow_dream3d/main.py:316-330 | Step 4 reads "Eulers" and writes "quats" |
| SegmentationPipeline.EnsembleStep | matflow_dream3d/main.py:331-342 | Step 5 imports "CrystalStructures" into "EnsembleAttributeMatrix" of "DataContainer" |
| SegmentationPipeline.SegmentStep | matflow_dream3d/main.py:343-374 | Step 6 reads "quats" and "Phase" from the cell data |
| SegmentationPipeline.SegmentEnsemble | matflow_dream3d/main.py:351-355 | Step 6 reads the imported crystal structures |
| SegmentationPipeline.SegmentMask | matflow_dream3d/main.py:362-374 | Step 6's mask path points into "ImageDataContainer", and `UseGoodVoxels` is 0 |
| SynthesisPipeline.ResolutionChoice | matflow_dream3d/main.py:402-403 | A given resolution is used unchanged. Otherwise it is derived from the size: a `TypeError` if the size is absent, a `ZeroDivisionError` on a zero dimension |
| SynthesisPipeline.SynthesisFailures | matflow_dream3d/main.py:400-634 | The builder fails exactly when the resolution cannot be settled (that error comes first) or when the grid, origin or resolution has fewer than three entries (`IndexError`) |
| SynthesisPipeline.SynthesisDescriptor | matflow_dream3d/main.py:400-887 | Every successful build is a descriptor with exactly the keys "0".."9" and "PipelineBuilder", `Number_Filters == 10`, and is wired as `DocumentWiring` states |
| SynthesisPipeline.SynthesisIsDescriptor | matflow_dream3d/main.py:408-884 | The descriptor has exactly keys "0".."9" and "PipelineBuilder", and `Number_Filters == 10` |
| SynthesisPipeline.SynthesisPlacement | matflow_dream3d/main.py:402-406 | A successful build places the settled resolution and origin in step 1, and `int(periodic)` in steps 3 and 5 |
| SynthesisPipeline.DocumentGeometry | matflow_dream3d/main.py:601-758 | Steps 3 and 5 carry the same `PeriodicBoundaries`, `int(periodic)`; step 1 holds the grid, origin and resolution |
| SynthesisPipeline.DocumentWiring | matflow_dream3d/main.py:601-871 | The descriptor is wired: every data-array path it reads names what an earlier step produced, and the unused masks are off |
| SynthesisPipeline.SetupWiredFromSteps | matflow_dream3d/main.py:601-694 | Steps 1-3 read the phase types, statistics and shape types of steps 0 and 2; step 3 packs into step 1's voxel matrix |
| SynthesisPipeline.PrecipitationWiredFromSteps | matflow_dream3d/main.py:695-762 | Steps 4 and 5 use the packing's feature ids, phases and feature phases, and step 4's boundary cells |
| SynthesisPipeline.PrecipitationInputsWiredFromSteps | matflow_dream3d/main.py:706-762 | Step 5 reads the statistics inputs and the feature count step 3 stores |
| SynthesisPipeline.MatchingWiredFromSteps | matflow_dream3d/main.py:763-839 | Steps 6 and 7 read the grain matrix, the feature ids, and step 6's neighbour lists |
| SynthesisPipeline.StatsReadersWiredFromSteps | matflow_dream3d/main.py:785-839 | Step 7 reads step 0's crystal structures, statistics and phase types |
| SynthesisPipeline.ColoringWiredFromSteps | matflow_dream3d/main.py:840-871 | Step 8 colours from step 7's Euler angles, step 3's phases and step 0's crystal structures, with its mask off |
| SynthesisPipeline.StatsStep | matflow_dream3d/main.py:409-600 | The names step 0 produces |
| SynthesisPipeline.VolumeStep | matflow_dream3d/main.py:601-634 | Step 1's container, voxel matrix and statistics inputs |
| SynthesisPipeline.VolumeGeometry | matflow_dream3d/main.py:601-634 | Step 1's dimensions, origin and resolution |
| SynthesisPipeline.ShapeStep | matflow_dream3d/main.py:635-650 | Step 2 reads the phase types and names the shape types |
| SynthesisPipeline.PackVoxelNames | matflow_dream3d/main.py:651-694 | Step 3 names the voxel phases and feature ids |
| SynthesisPipeline.PackGrainNames | matflow_dream3d/main.py:651-694 | Step 3 names the feature phases and the grain matrix |
| SynthesisPipeline.PackEnsembleNames | matflow_dream3d/main.py:651-694 | Step 3 names the feature count and the ensemble matrix |
| SynthesisPipeline.PackInputs | matflow_dream3d/main.py:651-694 | Step 3's inputs and output matrix |
| SynthesisPipeline.PackFlags | matflow_dream3d/main.py:677-691 | Step 3's periodic flag, and its mask off |
| SynthesisPipeline.BoundaryStep | matflow_dream3d/main.py:695-705 | Step 4 reads the feature ids and names the boundary cells |
| SynthesisPipeline.PrecipitateVoxelInputs | matflow_dream3d/main.py:706-762 | Step 5 reads the boundary cells and the voxel phases |
| SynthesisPipeline.PrecipitateFeatureInputs | matflow_dream3d/main.py:706-762 | Step 5 reads the feature ids and the feature phases |
| SynthesisPipeline.PrecipitateEnsembleInputs | matflow_dream3d/main.py:706-762 | Step 5 reads the statistics inputs and the feature count |
| SynthesisPipeline.PrecipitateFlags | matflow_dream3d/main.py:747-760 | Step 5's periodic flag, and its mask off |
| SynthesisPipeline.NeighborStep | matflow_dream3d/main.py:763-784 | Step 6's grain matrix input and the neighbour arrays it names |
| SynthesisPipeline.MatchVoxelInputs | matflow_dream3d/main.py:785-839 | Step 7 reads the feature ids and the feature phases |
| SynthesisPipeline.MatchOutputs | matflow_dream3d/main.py:785-839 | Step 7 reads the feature count and names the Euler angles |
| SynthesisPipeline.MatchNeighborInputs | matflow_dream3d/main.py:785-839 | Step 7 reads step 6's neighbour arrays |
| SynthesisPipeline.MatchEnsembleInputs | matflow_dream3d/main.py:785-839 | Step 7 reads the statistics generator's arrays |
| SynthesisPipeline.IpfStep | matflow_dream3d/main.py:840-871 | Step 8 reads the Euler angles, phases and crystal structures |
| SynthesisPipeline.IpfMask | matflow_dream3d/main.py:840-871 | Step 8's mask is off |
| PipelineJson.RenderMembers | matflow_dream3d/main.py:124-390 | The rendered object holds filter i under "i", the metadata under "PipelineBuilder", and nothing else |
| PipelineJson.RenderIsDescriptor | matflow_dream3d/main.py:385-389 | A pipeline whose metadata declares its own filter count renders as a descriptor with `n + 1` members |
| PipelineJson.FilterMembers | matflow_dream3d/main.py:124-384 | The step members are exactly "0".."n-1", each holding its filter |
| PipelineJson.TopLevelTextsDistinct | matflow_dream3d/main.py:124-390 | The top-level keys are distinct texts: the decimal step numbers and "PipelineBuilder" |
| Decimal.NatStringRoundTrip | matflow_dream3d/main.py:136-138 | Formatting a natural number in decimal gives digits that read back as the number |
| Decimal.NatStringInjective | matflow_dream3d/main.py:136-138 | Distinct numbers format to distinct texts |
| SegmentationInputs.OrientationFileFailures | matflow_dream3d/main.py:66-81 | The table is written exactly when there is an increment to read (else `IndexError`) and the converter gives one triple per voxel (else `ValueError`) |
| SegmentationInputs.OrientationRows | matflow_dream3d/main.py:70-89 | Voxel i gets row i: its phase, then the Euler angles of its orientation at the last increment; the values of a row are separated by `np.savetxt`'s default " " |
| SegmentationInputs.OrientationHeader | matflow_dream3d/main.py:74-82 | The header is the four column names, in order, separated by ", " |
| SegmentationInputs.ColumnFormats | matflow_dream3d/main.py:87 | One format per column: an integer for the phase, a float for each angle |
| SegmentationInputs.ImportReadsOrientationColumns | matflow_dream3d/main.py:74-89 | The segmentation import step declares the writer's column names in order; delimiters holding every character of both the header's ", " and the rows' " ", with runs of delimiters read as one; an integer phase column and float angle columns; and data after the single header line |
| SegmentationInputs.ImportCountsOrientationRows | matflow_dream3d/main.py:277 | For `product(grid_size)` voxels, the declared line count is the table's rows plus its header |
| SegmentationInputs.Indent | matflow_dream3d/main.py:109 | The indent is the run of leading spaces |
| SegmentationInputs.Margin | matflow_dream3d/main.py:109 | The margin is the smallest indent among the lines with text |
| SegmentationInputs.DedentRemovesMargin | matflow_dream3d/main.py:97-109 | Each line with text is the margin followed by its dedented form; lines of spaces only become empty |
| SegmentationInputs.DedentIsFlush | matflow_dream3d/main.py:97-109 | After dedenting, some line with text starts at column 0 |

## Left out

- Reading HDF5 files (`h5py.File` and the group paths) is not modelled. The
  parser takes the read arrays as inputs, so a missing group (`KeyError`)
  cannot occur.
- `.decode()` of the phase names is taken as the identity on strings.
- The JSON text is not modelled: `json.dump`, the indentation, the order of
  members and the writing of files. Descriptors are values with unordered
  members.
- `np.savetxt` number formatting (`%d`, `%20.17f`) is not modelled, nor is
  the output file's text. The formats and the row separator (`np.savetxt`'s
  default `" "`, since the writer passes no `delimiter`) are kept as strings.
- Floating-point rounding is not modelled. Sizes, resolutions and origins
  are reals, so round-trip lemmas hold exactly in the model, where floats
  hold them only approximately.
- `quat2euler` is a foreign call. It is a function parameter of
  `OrientationFile`.
- The `reshape(-1, 1)` and `reshape(-1, 4)` of the orientation writer are
  not modelled. The phases and quaternions arrive flattened.
- The `input_mapper`/`output_mapper` decorators register functions with the
  workflow engine; they are not modelled.
- These filter parameters are not modelled:
  - the bookkeeping members `FilterVersion`, `Filter_Enabled`,
    `Filter_Human_Label` and `Filter_Uuid`;
  - parameters with empty file names;
  - the fixed numeric settings that no other step refers to;
  - the statistical constants of synthesis step 0 (main.py:409-600), apart
    from the names that step produces.
- The output-file path `Path(path).parent.joinpath(name)` is modelled as
  `parent + "/" + name`. Path normalisation is not modelled.
- The ensemble text is modelled as the source's literal under a general
  `Dedent`. The lemma that it dedents to the exact written text is left out,
  because the literal makes the proof too large. Dedent handles spaces only,
  not tabs.
- VolumeElementParser.ParseVolumeElement: integers are unbounded. The
  `int32` wrap-around of `FeatureIds - 1` at the smallest `int32` value is
  not modelled.
- SegmentationPipeline.SegmentGrainsPipeline: the geometry step's
  (main.py:149-248) edge, face, hex, rectilinear-grid, tetrahedron and
  vertex attribute-matrix names, its `Shared*ListArrayPath` members
  (`SharedEdge`, `SharedHex`, `SharedQuad`, `SharedTet`, `SharedTri`,
  `SharedVertexListArrayPath0`-`5`) and its `X/Y/ZBoundsArrayPath` members
  are not modelled. With `GeometryType` 0 (an image geometry) the step reads
  none of them. `SharedVertexListArrayPath0` names
  `DataContainer/CellData2/coords`, which no step produces, so
  `DocumentWiring` does not cover these paths.
- SegmentationPipeline.SegmentGrainsPipeline: the line count is
  `np.product(grid_size) + 1` (main.py:277) over every entry of the grid,
  while `Dimensions` and the cell tuple dimensions keep only the first
  three. For a grid longer than three the two disagree: `[2, 2, 2, 5]`
  declares 41 lines for a geometry of 8 voxels. The model keeps this, and
  `SegmentationVoxelCount` states the extra factor.
- SegmentationPipeline.SegmentGrainsPipeline: `np.product` computes in
  `int64` and wraps around for very large grids (main.py:277); the model's
  product is unbounded.
- SegmentationPipeline.SegmentGrainsPipeline: `int(i)` (main.py:119)
  truncates a float grid entry toward zero; the model takes the grid as
  integers, so that truncation is not modelled.
- SynthesisPipeline.RvePipeline: the default origin is modelled as the
  reals (0, 0, 0). The source writes the integers `[0, 0, 0]`, which
  JSON spells without a decimal point.
- Some descriptions of the parser and builders differ from the code. The
  model follows the code:
  - `num_grains` is the largest zero-based index plus one, so a largest
    feature id of 3 gives three grains, not four.
  - No check relates the largest feature id to the length of the grain
    tables.
  - A negative grid dimension is accepted; only a zero one fails, with
    `ZeroDivisionError`.
  - Errors are Python's own exceptions, not named error types.
