/** `generate_RVE_pipeline`: the ten-filter DREAM.3D pipeline that generates a
    synthetic two-phase microstructure (a packed primary phase with inserted
    precipitates) over a voxel grid and writes it to a DREAM.3D file. */
module SynthesisPipeline {
  import opened Wrappers
  import opened Geometry
  import opened PipelineJson

  /** The arguments of the builder besides the output path. `resolution`,
      `size` and `origin` may be absent. */
  datatype SynthesisInputs = SynthesisInputs(
    gridSize: seq<int>,
    resolution: Option<seq<real>>,
    size: Option<seq<real>>,
    origin: Option<seq<real>>,
    periodic: bool)

  /** The voxel spacing: a given resolution is used unchanged; otherwise it is
      derived from `size`, and iterating over an absent size is a `TypeError`. */
  function ResolutionOf(inputs: SynthesisInputs): Result<seq<real>> {
    if inputs.resolution.Some? then Ok(inputs.resolution.value)
    else if inputs.size.None? then Err(TypeError)
    else ResolutionFromSize(inputs.size.value, inputs.gridSize)
  }

  function OriginOf(inputs: SynthesisInputs): seq<real> {
    if inputs.origin.Some? then inputs.origin.value else [0.0, 0.0, 0.0]
  }

  /** `int(periodic)`. */
  function PeriodicFlag(periodic: bool): int {
    if periodic then 1 else 0
  }

  // Containers and attribute matrices.
  const StatsContainer := "StatsGeneratorDataContainer"
  const EnsembleMatrix := "CellEnsembleData"
  const VolumeContainer := "SyntheticVolumeDataContainer"
  const VoxelMatrix := "CellData"
  const GrainMatrix := "Grain Data"

  // Array names.
  const PhaseTypesArray := "PhaseTypes"
  const StatisticsArray := "Statistics"
  const CrystalStructuresArray := "CrystalStructures"
  const ShapeTypesArray := "ShapeTypes"
  const PhasesArray := "Phases"
  const FeatureIdsArray := "FeatureIds"
  const NumFeaturesArray := "NumFeatures"
  const BoundaryCellsArray := "BoundaryCells"
  const NeighborListArray := "NeighborList"
  const NumNeighborsArray := "NumNeighbors"
  const SharedSurfaceAreaListArray := "SharedSurfaceAreaList"
  const SurfaceFeaturesArray := "SurfaceFeatures"
  const AvgQuatsArray := "AvgQuats"
  const EulerAnglesArray := "EulerAngles"
  const VolumesArray := "Volumes"
  const IpfColorArray := "IPFColor"

  // The DREAM.3D class name of each filter, its "Filter_Name".
  const StatsGeneratorClass := "StatsGeneratorFilter"
  const InitializeVolumeClass := "InitializeSyntheticVolume"
  const ShapeTypesClass := "EstablishShapeTypes"
  const PackPrimaryClass := "PackPrimaryPhases"
  const BoundaryCellsClass := "FindBoundaryCells"
  const InsertPrecipitatesClass := "InsertPrecipitatePhases"
  const FindNeighborsClass := "FindNeighbors"
  const MatchCrystallographyClass := "MatchCrystallography"
  const IpfColorsClass := "GenerateIPFColors"
  const WriterClass := "DataContainerWriter"

  /** Arrays of the statistics generator's ensemble matrix. */
  function StatsArray(name: string): ArrayRef {
    ArrayRef(StatsContainer, EnsembleMatrix, name)
  }

  /** Arrays of the synthetic volume's voxel matrix. */
  function VoxelArray(name: string): ArrayRef {
    ArrayRef(VolumeContainer, VoxelMatrix, name)
  }

  /** Arrays of the synthetic volume's grain (feature) matrix. */
  function GrainArray(name: string): ArrayRef {
    ArrayRef(VolumeContainer, GrainMatrix, name)
  }

  /** A path that names no array: the disabled masks. */
  const NoArray := ArrayRef("", "", "")

  /** Step 0, "StatsGenerator": creates the ensemble matrix holding the phase
      types, crystal structures and the statistics of both phases. */
  function StatsGeneratorFilter(): Json {
    JObj(map[
      CellEnsembleAttributeMatrixName := JStr(EnsembleMatrix),
      CrystalStructuresArrayName := JStr(CrystalStructuresArray),
      Filter_Name := JStr(StatsGeneratorClass),
      PhaseTypesArrayName := JStr(PhaseTypesArray),
      StatsDataArrayName := JStr(StatisticsArray),
      StatsGeneratorDataContainerName := JStr(StatsContainer)])
  }

  /** Step 1, "Initialize Synthetic Volume": the voxel grid with its origin and spacing. */
  function InitializeVolumeFilter(g0: int, g1: int, g2: int, origin: seq<real>, resolution: seq<real>): Json
    requires |origin| >= 3 && |resolution| >= 3
  {
    JObj(map[
      CellAttributeMatrixName := JStr(VoxelMatrix),
      DataContainerName := JStr(VolumeContainer),
      Dimensions := XyzJson(JInt(g0), JInt(g1), JInt(g2)),
      EstimateNumberOfFeatures := JInt(0),
      Filter_Name := JStr(InitializeVolumeClass),
      InputPhaseTypesArrayPath := JPath(StatsArray(PhaseTypesArray)),
      InputStatsArrayPath := JPath(StatsArray(StatisticsArray)),
      Origin := XyzJson(JReal(origin[0]), JReal(origin[1]), JReal(origin[2])),
      Resolution := XyzJson(JReal(resolution[0]), JReal(resolution[1]), JReal(resolution[2]))])
  }

  /** Step 2, "Establish Shape Types". */
  function ShapeTypesFilter(): Json {
    JObj(map[
      Filter_Name := JStr(ShapeTypesClass),
      InputPhaseTypesArrayPath := JPath(StatsArray(PhaseTypesArray)),
      ShapeTypeData := JArr([JInt(999), JInt(0), JInt(0)]),
      ShapeTypesArrayName := JStr(ShapeTypesArray)])
  }

  /** Step 3, "Pack Primary Phases": fills the voxels with primary grains. */
  function PackPrimaryFilter(periodicBoundaries: int): Json {
    JObj(map[
      CellPhasesArrayName := JStr(PhasesArray),
      FeatureIdsArrayName := JStr(FeatureIdsArray),
      FeaturePhasesArrayName := JStr(PhasesArray),
      Filter_Name := JStr(PackPrimaryClass),
      FeatureGeneration := JInt(0),
      InputPhaseTypesArrayPath := JPath(StatsArray(PhaseTypesArray)),
      InputShapeTypesArrayPath := JPath(StatsArray(ShapeTypesArray)),
      InputStatsArrayPath := JPath(StatsArray(StatisticsArray)),
      MaskArrayPath := JPath(NoArray),
      NumFeaturesArrayName := JStr(NumFeaturesArray),
      OutputCellAttributeMatrixPath := JPath(VoxelArray("")),
      OutputCellEnsembleAttributeMatrixName := JStr(EnsembleMatrix),
      OutputCellFeatureAttributeMatrixName := JStr(GrainMatrix),
      PeriodicBoundaries := JInt(periodicBoundaries),
      UseMask := JInt(0)])
  }

  /** Step 4, "Find Boundary Cells (Image)". */
  function BoundaryCellsFilter(): Json {
    JObj(map[
      BoundaryCellsArrayName := JStr(BoundaryCellsArray),
      FeatureIdsArrayPath := JPath(VoxelArray(FeatureIdsArray)),
      Filter_Name := JStr(BoundaryCellsClass)])
  }

  /** Step 5, "Insert Precipitate Phases". */
  function InsertPrecipitatesFilter(periodicBoundaries: int): Json {
    JObj(map[
      BoundaryCellsArrayPath := JPath(VoxelArray(BoundaryCellsArray)),
      CellPhasesArrayPath := JPath(VoxelArray(PhasesArray)),
      FeatureIdsArrayPath := JPath(VoxelArray(FeatureIdsArray)),
      FeaturePhasesArrayPath := JPath(GrainArray(PhasesArray)),
      Filter_Name := JStr(InsertPrecipitatesClass),
      HavePrecips := JInt(0),
      InputPhaseTypesArrayPath := JPath(StatsArray(PhaseTypesArray)),
      InputShapeTypesArrayPath := JPath(StatsArray(ShapeTypesArray)),
      InputStatsArrayPath := JPath(StatsArray(StatisticsArray)),
      MaskArrayPath := JPath(NoArray),
      MatchRDF := JInt(0),
      NumFeaturesArrayPath := JPath(ArrayRef(VolumeContainer, EnsembleMatrix, NumFeaturesArray)),
      PeriodicBoundaries := JInt(periodicBoundaries),
      UseMask := JInt(0)])
  }

  /** Step 6, "Find Feature Neighbors". */
  function FindNeighborsFilter(): Json {
    JObj(map[
      BoundaryCellsArrayName := JStr(BoundaryCellsArray),
      CellFeatureAttributeMatrixPath := JPath(GrainArray("")),
      FeatureIdsArrayPath := JPath(VoxelArray(FeatureIdsArray)),
      Filter_Name := JStr(FindNeighborsClass),
      NeighborListArrayName := JStr(NeighborListArray),
      NumNeighborsArrayName := JStr(NumNeighborsArray),
      SharedSurfaceAreaListArrayName := JStr(SharedSurfaceAreaListArray),
      StoreBoundaryCells := JInt(0),
      StoreSurfaceFeatures := JInt(1),
      SurfaceFeaturesArrayName := JStr(SurfaceFeaturesArray)])
  }

  /** Step 7, "Match Crystallography": assigns grain orientations. */
  function MatchCrystallographyFilter(): Json {
    JObj(map[
      AvgQuatsArrayName := JStr(AvgQuatsArray),
      CellEulerAnglesArrayName := JStr(EulerAnglesArray),
      CrystalStructuresArrayPath := JPath(StatsArray(CrystalStructuresArray)),
      FeatureEulerAnglesArrayName := JStr(EulerAnglesArray),
      FeatureIdsArrayPath := JPath(VoxelArray(FeatureIdsArray)),
      FeaturePhasesArrayPath := JPath(GrainArray(PhasesArray)),
      Filter_Name := JStr(MatchCrystallographyClass),
      InputStatsArrayPath := JPath(StatsArray(StatisticsArray)),
      MaxIterations := JInt(100000),
      NeighborListArrayPath := JPath(GrainArray(NeighborListArray)),
      NumFeaturesArrayPath := JPath(ArrayRef(VolumeContainer, EnsembleMatrix, NumFeaturesArray)),
      PhaseTypesArrayPath := JPath(StatsArray(PhaseTypesArray)),
      SharedSurfaceAreaListArrayPath := JPath(GrainArray(SharedSurfaceAreaListArray)),
      SurfaceFeaturesArrayPath := JPath(GrainArray(SurfaceFeaturesArray)),
      VolumesArrayName := JStr(VolumesArray)])
  }

  /** Step 8, "Generate IPF Colors" along the z direction. */
  function IpfColorsFilter(): Json {
    JObj(map[
      CellEulerAnglesArrayPath := JPath(VoxelArray(EulerAnglesArray)),
      CellIPFColorsArrayName := JStr(IpfColorArray),
      CellPhasesArrayPath := JPath(VoxelArray(PhasesArray)),
      CrystalStructuresArrayPath := JPath(StatsArray(CrystalStructuresArray)),
      Filter_Name := JStr(IpfColorsClass),
      GoodVoxelsArrayPath := JPath(VoxelArray("")),
      ReferenceDir := XyzJson(JInt(0), JInt(0), JInt(1)),
      UseGoodVoxels := JInt(0)])
  }

  /** Step 9, "Write DREAM.3D Data File". */
  function VolumeWriterFilter(parent: string): Json {
    JObj(map[
      Filter_Name := JStr(WriterClass),
      OutputFile := JStr(parent + "/" + "pipeline.dream3d"),
      WriteXdmfFile := JInt(1)])
  }

  function SynthesisMetadata(): Json {
    JObj(map[
      Name := JStr("(04) Two Phase Cubic Hexagonal Particles Equiaxed"),
      Number_Filters := JInt(10),
      Version := JStr("1.0")])
  }

  /** The pipeline once the grid, origin, spacing and periodic flag are known:
      the ten filters in execution order. */
  function SynthesisDocument(g: seq<int>, origin: seq<real>, resolution: seq<real>, periodic: bool, parent: string): (p: Pipeline)
    requires |g| >= 3 && |origin| >= 3 && |resolution| >= 3
    ensures |p.filters| == 10
    ensures p.filters[0] == StatsGeneratorFilter()
    ensures p.filters[1] == InitializeVolumeFilter(g[0], g[1], g[2], origin, resolution)
    ensures p.filters[2] == ShapeTypesFilter()
    ensures p.filters[3] == PackPrimaryFilter(PeriodicFlag(periodic))
    ensures p.filters[4] == BoundaryCellsFilter()
    ensures p.filters[5] == InsertPrecipitatesFilter(PeriodicFlag(periodic))
    ensures p.filters[6] == FindNeighborsFilter()
    ensures p.filters[7] == MatchCrystallographyFilter()
    ensures p.filters[8] == IpfColorsFilter()
    ensures p.filters[9] == VolumeWriterFilter(parent)
  {
    Pipeline(
      [ StatsGeneratorFilter(),
        InitializeVolumeFilter(g[0], g[1], g[2], origin, resolution),
        ShapeTypesFilter(),
        PackPrimaryFilter(PeriodicFlag(periodic)),
        BoundaryCellsFilter(),
        InsertPrecipitatesFilter(PeriodicFlag(periodic)),
        FindNeighborsFilter(),
        MatchCrystallographyFilter(),
        IpfColorsFilter(),
        VolumeWriterFilter(parent)],
      SynthesisMetadata())
  }

  /** `generate_RVE_pipeline` without the file write: the descriptor, or the
      exception the source raises. The resolution is settled before the
      descriptor's literal indexes any list. */
  function RvePipeline(inputs: SynthesisInputs, parent: string): Result<Pipeline> {
    var resolution :- ResolutionOf(inputs);
    AssembleSynthesis(inputs.gridSize, OriginOf(inputs), resolution, inputs.periodic, parent)
  }

  /** The descriptor's literal, which reads the first three entries of the
      grid, the origin and the resolution. */
  function AssembleSynthesis(g: seq<int>, origin: seq<real>, resolution: seq<real>, periodic: bool, parent: string): Result<Pipeline> {
    if |g| < 3 || |origin| < 3 || |resolution| < 3 then Err(IndexError)
    else Ok(SynthesisDocument(g, origin, resolution, periodic, parent))
  }

  /** The spacing is the given resolution whenever there is one; only an
      absent resolution is derived from the size, and then an absent size is a
      `TypeError` and a zero grid dimension a `ZeroDivisionError`. */
  lemma ResolutionChoice(inputs: SynthesisInputs)
    ensures inputs.resolution.Some? ==> ResolutionOf(inputs) == Ok(inputs.resolution.value)
    ensures inputs.resolution.None? && inputs.size.None? ==> ResolutionOf(inputs) == Err(TypeError)
    ensures inputs.resolution.None? && inputs.size.Some? ==>
              (ResolutionOf(inputs).Err? <==>
                 exists k :: 0 <= k < |inputs.size.value| && k < |inputs.gridSize| && inputs.gridSize[k] == 0)
    ensures ResolutionOf(inputs).Err? ==> ResolutionOf(inputs).error in {TypeError, ZeroDivisionError}
  {
  }

  /** The builder fails exactly when the spacing cannot be settled, or when
      the grid, the origin or the spacing has fewer than three entries
      (`IndexError`); a failure to settle the spacing is reported first. */
  lemma SynthesisFailures(inputs: SynthesisInputs, parent: string)
    ensures var short := |inputs.gridSize| < 3 || |OriginOf(inputs)| < 3
                         || (ResolutionOf(inputs).Ok? && |ResolutionOf(inputs).value| < 3);
            && (RvePipeline(inputs, parent).Err? <==> ResolutionOf(inputs).Err? || short)
            && (ResolutionOf(inputs).Err? ==> RvePipeline(inputs, parent) == Err(ResolutionOf(inputs).error))
            && (ResolutionOf(inputs).Ok? && short ==> RvePipeline(inputs, parent) == Err(IndexError))
  {
    var resolution := ResolutionOf(inputs);
    if resolution.Ok? {
      assert RvePipeline(inputs, parent)
             == AssembleSynthesis(inputs.gridSize, OriginOf(inputs), resolution.value, inputs.periodic, parent);
    }
  }

  /** A successful build is the pipeline assembled from the grid, the origin
      (by default (0, 0, 0)), the settled spacing and the periodic flag. */
  lemma SynthesisBuilt(inputs: SynthesisInputs, parent: string)
    requires RvePipeline(inputs, parent).Ok?
    ensures ResolutionOf(inputs).Ok?
    ensures RvePipeline(inputs, parent)
            == AssembleSynthesis(inputs.gridSize, OriginOf(inputs), ResolutionOf(inputs).value, inputs.periodic, parent)
  {
  }

  lemma SynthesisAssembled(g: seq<int>, origin: seq<real>, resolution: seq<real>, periodic: bool, parent: string)
    requires AssembleSynthesis(g, origin, resolution, periodic, parent).Ok?
    ensures |g| >= 3 && |origin| >= 3 && |resolution| >= 3
    ensures AssembleSynthesis(g, origin, resolution, periodic, parent).value
            == SynthesisDocument(g, origin, resolution, periodic, parent)
  {
  }

  /** Whatever the geometry, the assembled pipeline is a descriptor of ten filters. */
  lemma SynthesisIsDescriptor(g: seq<int>, origin: seq<real>, resolution: seq<real>, periodic: bool, parent: string)
    requires |g| >= 3 && |origin| >= 3 && |resolution| >= 3
    ensures IsPipelineDescriptor(Render(SynthesisDocument(g, origin, resolution, periodic, parent)), 10)
  {
    RenderIsDescriptor(SynthesisDocument(g, origin, resolution, periodic, parent));
  }

  // What each filter of a pipeline holds, stated for any pipeline with that
  // filter at that step so that the other filters stay out of the proof.

  lemma StatsStep(p: Pipeline)
    requires |p.filters| >= 1 && p.filters[0] == StatsGeneratorFilter()
    ensures NameAt(p, Param(0, StatsGeneratorDataContainerName)) == Some(StatsContainer)
    ensures NameAt(p, Param(0, CellEnsembleAttributeMatrixName)) == Some(EnsembleMatrix)
    ensures NameAt(p, Param(0, PhaseTypesArrayName)) == Some(PhaseTypesArray)
    ensures NameAt(p, Param(0, StatsDataArrayName)) == Some(StatisticsArray)
    ensures NameAt(p, Param(0, CrystalStructuresArrayName)) == Some(CrystalStructuresArray)
  {
  }

  lemma VolumeStep(p: Pipeline, g0: int, g1: int, g2: int, origin: seq<real>, resolution: seq<real>)
    requires |origin| >= 3 && |resolution| >= 3
    requires |p.filters| >= 2 && p.filters[1] == InitializeVolumeFilter(g0, g1, g2, origin, resolution)
    ensures NameAt(p, Param(1, DataContainerName)) == Some(VolumeContainer)
    ensures NameAt(p, Param(1, CellAttributeMatrixName)) == Some(VoxelMatrix)
    ensures RefAt(p, Param(1, InputPhaseTypesArrayPath)) == Some(StatsArray(PhaseTypesArray))
    ensures RefAt(p, Param(1, InputStatsArrayPath)) == Some(StatsArray(StatisticsArray))
  {
  }

  lemma VolumeGeometry(p: Pipeline, g0: int, g1: int, g2: int, origin: seq<real>, resolution: seq<real>)
    requires |origin| >= 3 && |resolution| >= 3
    requires |p.filters| >= 2 && p.filters[1] == InitializeVolumeFilter(g0, g1, g2, origin, resolution)
    ensures Lookup(p, Param(1, Dimensions)) == Some(XyzJson(JInt(g0), JInt(g1), JInt(g2)))
    ensures Lookup(p, Param(1, Origin)) == Some(XyzJson(JReal(origin[0]), JReal(origin[1]), JReal(origin[2])))
    ensures Lookup(p, Param(1, Resolution)) == Some(XyzJson(JReal(resolution[0]), JReal(resolution[1]), JReal(resolution[2])))
  {
  }

  lemma ShapeStep(p: Pipeline)
    requires |p.filters| >= 3 && p.filters[2] == ShapeTypesFilter()
    ensures RefAt(p, Param(2, InputPhaseTypesArrayPath)) == Some(StatsArray(PhaseTypesArray))
    ensures NameAt(p, Param(2, ShapeTypesArrayName)) == Some(ShapeTypesArray)
  {
  }

  lemma PackVoxelNames(p: Pipeline, periodicBoundaries: int)
    requires |p.filters| >= 4 && p.filters[3] == PackPrimaryFilter(periodicBoundaries)
    ensures NameAt(p, Param(3, CellPhasesArrayName)) == Some(PhasesArray)
    ensures NameAt(p, Param(3, FeatureIdsArrayName)) == Some(FeatureIdsArray)
  {
  }

  lemma PackGrainNames(p: Pipeline, periodicBoundaries: int)
    requires |p.filters| >= 4 && p.filters[3] == PackPrimaryFilter(periodicBoundaries)
    ensures NameAt(p, Param(3, FeaturePhasesArrayName)) == Some(PhasesArray)
    ensures NameAt(p, Param(3, OutputCellFeatureAttributeMatrixName)) == Some(GrainMatrix)
  {
  }

  lemma PackEnsembleNames(p: Pipeline, periodicBoundaries: int)
    requires |p.filters| >= 4 && p.filters[3] == PackPrimaryFilter(periodicBoundaries)
    ensures NameAt(p, Param(3, NumFeaturesArrayName)) == Some(NumFeaturesArray)
    ensures NameAt(p, Param(3, OutputCellEnsembleAttributeMatrixName)) == Some(EnsembleMatrix)
  {
  }

  lemma PackInputs(p: Pipeline, periodicBoundaries: int)
    requires |p.filters| >= 4 && p.filters[3] == PackPrimaryFilter(periodicBoundaries)
    ensures RefAt(p, Param(3, InputPhaseTypesArrayPath)) == Some(StatsArray(PhaseTypesArray))
    ensures RefAt(p, Param(3, InputShapeTypesArrayPath)) == Some(StatsArray(ShapeTypesArray))
    ensures RefAt(p, Param(3, InputStatsArrayPath)) == Some(StatsArray(StatisticsArray))
    ensures RefAt(p, Param(3, OutputCellAttributeMatrixPath)) == Some(VoxelArray(""))
  {
  }

  lemma PackFlags(p: Pipeline, periodicBoundaries: int)
    requires |p.filters| >= 4 && p.filters[3] == PackPrimaryFilter(periodicBoundaries)
    ensures IntAt(p, Param(3, PeriodicBoundaries)) == Some(periodicBoundaries)
    ensures RefAt(p, Param(3, MaskArrayPath)) == Some(NoArray)
    ensures IntAt(p, Param(3, UseMask)) == Some(0)
  {
  }

  lemma BoundaryStep(p: Pipeline)
    requires |p.filters| >= 5 && p.filters[4] == BoundaryCellsFilter()
    ensures NameAt(p, Param(4, BoundaryCellsArrayName)) == Some(BoundaryCellsArray)
    ensures RefAt(p, Param(4, FeatureIdsArrayPath)) == Some(VoxelArray(FeatureIdsArray))
  {
  }

  lemma PrecipitateVoxelInputs(p: Pipeline, periodicBoundaries: int)
    requires |p.filters| >= 6 && p.filters[5] == InsertPrecipitatesFilter(periodicBoundaries)
    ensures RefAt(p, Param(5, BoundaryCellsArrayPath)) == Some(VoxelArray(BoundaryCellsArray))
    ensures RefAt(p, Param(5, CellPhasesArrayPath)) == Some(VoxelArray(PhasesArray))
  {
  }

  lemma PrecipitateFeatureInputs(p: Pipeline, periodicBoundaries: int)
    requires |p.filters| >= 6 && p.filters[5] == InsertPrecipitatesFilter(periodicBoundaries)
    ensures RefAt(p, Param(5, FeatureIdsArrayPath)) == Some(VoxelArray(FeatureIdsArray))
    ensures RefAt(p, Param(5, FeaturePhasesArrayPath)) == Some(GrainArray(PhasesArray))
  {
  }

  lemma PrecipitateEnsembleInputs(p: Pipeline, periodicBoundaries: int)
    requires |p.filters| >= 6 && p.filters[5] == InsertPrecipitatesFilter(periodicBoundaries)
    ensures RefAt(p, Param(5, InputPhaseTypesArrayPath)) == Some(StatsArray(PhaseTypesArray))
    ensures RefAt(p, Param(5, InputShapeTypesArrayPath)) == Some(StatsArray(ShapeTypesArray))
    ensures RefAt(p, Param(5, InputStatsArrayPath)) == Some(StatsArray(StatisticsArray))
    ensures RefAt(p, Param(5, NumFeaturesArrayPath)) == Some(ArrayRef(VolumeContainer, EnsembleMatrix, NumFeaturesArray))
  {
  }

  lemma PrecipitateFlags(p: Pipeline, periodicBoundaries: int)
    requires |p.filters| >= 6 && p.filters[5] == InsertPrecipitatesFilter(periodicBoundaries)
    ensures IntAt(p, Param(5, PeriodicBoundaries)) == Some(periodicBoundaries)
    ensures RefAt(p, Param(5, MaskArrayPath)) == Some(NoArray)
    ensures IntAt(p, Param(5, UseMask)) == Some(0)
  {
  }

  lemma NeighborStep(p: Pipeline)
    requires |p.filters| >= 7 && p.filters[6] == FindNeighborsFilter()
    ensures RefAt(p, Param(6, CellFeatureAttributeMatrixPath)) == Some(GrainArray(""))
    ensures RefAt(p, Param(6, FeatureIdsArrayPath)) == Some(VoxelArray(FeatureIdsArray))
    ensures NameAt(p, Param(6, NeighborListArrayName)) == Some(NeighborListArray)
    ensures NameAt(p, Param(6, SharedSurfaceAreaListArrayName)) == Some(SharedSurfaceAreaListArray)
    ensures NameAt(p, Param(6, SurfaceFeaturesArrayName)) == Some(SurfaceFeaturesArray)
  {
  }

  lemma MatchVoxelInputs(p: Pipeline)
    requires |p.filters| >= 8 && p.filters[7] == MatchCrystallographyFilter()
    ensures RefAt(p, Param(7, FeatureIdsArrayPath)) == Some(VoxelArray(FeatureIdsArray))
    ensures RefAt(p, Param(7, FeaturePhasesArrayPath)) == Some(GrainArray(PhasesArray))
  {
  }

  lemma MatchOutputs(p: Pipeline)
    requires |p.filters| >= 8 && p.filters[7] == MatchCrystallographyFilter()
    ensures RefAt(p, Param(7, NumFeaturesArrayPath)) == Some(ArrayRef(VolumeContainer, EnsembleMatrix, NumFeaturesArray))
    ensures NameAt(p, Param(7, CellEulerAnglesArrayName)) == Some(EulerAnglesArray)
  {
  }

  lemma MatchNeighborInputs(p: Pipeline)
    requires |p.filters| >= 8 && p.filters[7] == MatchCrystallographyFilter()
    ensures RefAt(p, Param(7, NeighborListArrayPath)) == Some(GrainArray(NeighborListArray))
    ensures RefAt(p, Param(7, SharedSurfaceAreaListArrayPath)) == Some(GrainArray(SharedSurfaceAreaListArray))
    ensures RefAt(p, Param(7, SurfaceFeaturesArrayPath)) == Some(GrainArray(SurfaceFeaturesArray))
  {
  }

  lemma MatchEnsembleInputs(p: Pipeline)
    requires |p.filters| >= 8 && p.filters[7] == MatchCrystallographyFilter()
    ensures RefAt(p, Param(7, CrystalStructuresArrayPath)) == Some(StatsArray(CrystalStructuresArray))
    ensures RefAt(p, Param(7, InputStatsArrayPath)) == Some(StatsArray(StatisticsArray))
    ensures RefAt(p, Param(7, PhaseTypesArrayPath)) == Some(StatsArray(PhaseTypesArray))
  {
  }

  lemma IpfStep(p: Pipeline)
    requires |p.filters| >= 9 && p.filters[8] == IpfColorsFilter()
    ensures RefAt(p, Param(8, CellEulerAnglesArrayPath)) == Some(VoxelArray(EulerAnglesArray))
    ensures RefAt(p, Param(8, CellPhasesArrayPath)) == Some(VoxelArray(PhasesArray))
    ensures RefAt(p, Param(8, CrystalStructuresArrayPath)) == Some(StatsArray(CrystalStructuresArray))
  {
  }

  lemma IpfMask(p: Pipeline)
    requires |p.filters| >= 9 && p.filters[8] == IpfColorsFilter()
    ensures RefAt(p, Param(8, GoodVoxelsArrayPath)) == Some(VoxelArray(""))
    ensures IntAt(p, Param(8, UseGoodVoxels)) == Some(0)
  {
  }

  // Where the names in the paths come from: the statistics generator's
  // container and ensemble matrix (step 0), the synthetic volume's container
  // and voxel matrix (step 1), and the grain and ensemble matrices that the
  // packing step adds to the volume (step 3).
  const StatsContainerSource := From(Param(0, StatsGeneratorDataContainerName))
  const StatsMatrixSource := From(Param(0, CellEnsembleAttributeMatrixName))
  const VolumeSource := From(Param(1, DataContainerName))
  const VoxelMatrixSource := From(Param(1, CellAttributeMatrixName))
  const GrainMatrixSource := From(Param(3, OutputCellFeatureAttributeMatrixName))
  const VolumeEnsembleSource := From(Param(3, OutputCellEnsembleAttributeMatrixName))

  /** The path at `consumer` is the array named at `name` in the statistics generator's ensemble matrix. */
  predicate ReadsStats(p: Pipeline, consumer: Slot, name: Slot) {
    Refers(p, consumer, StatsContainerSource, StatsMatrixSource, From(name))
  }

  /** The path at `consumer` is the array named at `name` in the synthetic volume's voxel matrix. */
  predicate ReadsVoxels(p: Pipeline, consumer: Slot, name: Slot) {
    Refers(p, consumer, VolumeSource, VoxelMatrixSource, From(name))
  }

  /** The path at `consumer` is the array named at `name` in the synthetic volume's grain matrix. */
  predicate ReadsGrains(p: Pipeline, consumer: Slot, name: Slot) {
    Refers(p, consumer, VolumeSource, GrainMatrixSource, From(name))
  }

  /** Steps 1 to 3 read the phase types, statistics and shape types that
      steps 0 and 2 produce, and step 3 packs into step 1's voxel matrix. */
  predicate SetupWired(p: Pipeline) {
    && ReadsStats(p, Param(1, InputPhaseTypesArrayPath), Param(0, PhaseTypesArrayName))
    && ReadsStats(p, Param(1, InputStatsArrayPath), Param(0, StatsDataArrayName))
    && ReadsStats(p, Param(2, InputPhaseTypesArrayPath), Param(0, PhaseTypesArrayName))
    && ReadsStats(p, Param(3, InputPhaseTypesArrayPath), Param(0, PhaseTypesArrayName))
    && ReadsStats(p, Param(3, InputShapeTypesArrayPath), Param(2, ShapeTypesArrayName))
    && ReadsStats(p, Param(3, InputStatsArrayPath), Param(0, StatsDataArrayName))
    && Refers(p, Param(3, OutputCellAttributeMatrixPath), VolumeSource, VoxelMatrixSource, Blank)
  }

  /** Steps 4 and 5 work on the feature ids, phases and feature phases of the
      packing and on step 4's boundary cells. */
  predicate PrecipitationWired(p: Pipeline) {
    && ReadsVoxels(p, Param(4, FeatureIdsArrayPath), Param(3, FeatureIdsArrayName))
    && ReadsVoxels(p, Param(5, BoundaryCellsArrayPath), Param(4, BoundaryCellsArrayName))
    && ReadsVoxels(p, Param(5, CellPhasesArrayPath), Param(3, CellPhasesArrayName))
    && ReadsVoxels(p, Param(5, FeatureIdsArrayPath), Param(3, FeatureIdsArrayName))
    && ReadsGrains(p, Param(5, FeaturePhasesArrayPath), Param(3, FeaturePhasesArrayName))
  }

  /** Step 5 also reads the statistics inputs and the feature count that step
      3 stores in the volume's ensemble matrix. */
  predicate PrecipitationInputsWired(p: Pipeline) {
    && ReadsStats(p, Param(5, InputPhaseTypesArrayPath), Param(0, PhaseTypesArrayName))
    && ReadsStats(p, Param(5, InputShapeTypesArrayPath), Param(2, ShapeTypesArrayName))
    && ReadsStats(p, Param(5, InputStatsArrayPath), Param(0, StatsDataArrayName))
    && Refers(p, Param(5, NumFeaturesArrayPath), VolumeSource, VolumeEnsembleSource, From(Param(3, NumFeaturesArrayName)))
  }

  /** Step 6 finds neighbours over the packing's grain matrix and feature ids. */
  predicate NeighborsWired(p: Pipeline) {
    && Refers(p, Param(6, CellFeatureAttributeMatrixPath), VolumeSource, GrainMatrixSource, Blank)
    && ReadsVoxels(p, Param(6, FeatureIdsArrayPath), Param(3, FeatureIdsArrayName))
  }

  /** Step 7 matches crystallography on what steps 3 and 6 produce. */
  predicate MatchingWired(p: Pipeline) {
    && ReadsVoxels(p, Param(7, FeatureIdsArrayPath), Param(3, FeatureIdsArrayName))
    && ReadsGrains(p, Param(7, FeaturePhasesArrayPath), Param(3, FeaturePhasesArrayName))
    && ReadsGrains(p, Param(7, NeighborListArrayPath), Param(6, NeighborListArrayName))
    && ReadsGrains(p, Param(7, SharedSurfaceAreaListArrayPath), Param(6, SharedSurfaceAreaListArrayName))
    && ReadsGrains(p, Param(7, SurfaceFeaturesArrayPath), Param(6, SurfaceFeaturesArrayName))
    && Refers(p, Param(7, NumFeaturesArrayPath), VolumeSource, VolumeEnsembleSource, From(Param(3, NumFeaturesArrayName)))
  }

  /** Step 7 also reads the statistics generator's crystal structures, statistics and phase types. */
  predicate MatchingInputsWired(p: Pipeline) {
    && ReadsStats(p, Param(7, CrystalStructuresArrayPath), Param(0, CrystalStructuresArrayName))
    && ReadsStats(p, Param(7, InputStatsArrayPath), Param(0, StatsDataArrayName))
    && ReadsStats(p, Param(7, PhaseTypesArrayPath), Param(0, PhaseTypesArrayName))
  }

  /** Step 8 colours the voxels from step 7's Euler angles, step 3's phases
      and step 0's crystal structures; its voxel mask is switched off. */
  predicate ColoringWired(p: Pipeline) {
    && ReadsVoxels(p, Param(8, CellEulerAnglesArrayPath), Param(7, CellEulerAnglesArrayName))
    && ReadsVoxels(p, Param(8, CellPhasesArrayPath), Param(3, CellPhasesArrayName))
    && ReadsStats(p, Param(8, CrystalStructuresArrayPath), Param(0, CrystalStructuresArrayName))
    && Refers(p, Param(8, GoodVoxelsArrayPath), VolumeSource, VoxelMatrixSource, Blank)
    && IntAt(p, Param(8, UseGoodVoxels)) == Some(0)
  }

  /** Steps 3 and 5 use no mask, and their mask path names nothing. */
  predicate MasksOff(p: Pipeline) {
    && RefAt(p, Param(3, MaskArrayPath)) == Some(NoArray) && IntAt(p, Param(3, UseMask)) == Some(0)
    && RefAt(p, Param(5, MaskArrayPath)) == Some(NoArray) && IntAt(p, Param(5, UseMask)) == Some(0)
  }

  /** Every data-array path a filter of the synthesis pipeline reads names
      what an earlier filter produced. */
  predicate SynthesisWiring(p: Pipeline) {
    && SetupWired(p) && PrecipitationWired(p) && PrecipitationInputsWired(p)
    && NeighborsWired(p) && MatchingWired(p) && MatchingInputsWired(p)
    && ColoringWired(p) && MasksOff(p)
  }

  // Each group of paths is wired in any pipeline whose steps hold the names
  // and paths the step lemmas above establish.

  lemma SetupWiredFromSteps(p: Pipeline)
    requires NameAt(p, Param(0, StatsGeneratorDataContainerName)) == Some(StatsContainer)
    requires NameAt(p, Param(0, CellEnsembleAttributeMatrixName)) == Some(EnsembleMatrix)
    requires NameAt(p, Param(0, PhaseTypesArrayName)) == Some(PhaseTypesArray)
    requires NameAt(p, Param(0, StatsDataArrayName)) == Some(StatisticsArray)
    requires NameAt(p, Param(1, DataContainerName)) == Some(VolumeContainer)
    requires NameAt(p, Param(1, CellAttributeMatrixName)) == Some(VoxelMatrix)
    requires RefAt(p, Param(1, InputPhaseTypesArrayPath)) == Some(StatsArray(PhaseTypesArray))
    requires RefAt(p, Param(1, InputStatsArrayPath)) == Some(StatsArray(StatisticsArray))
    requires RefAt(p, Param(2, InputPhaseTypesArrayPath)) == Some(StatsArray(PhaseTypesArray))
    requires NameAt(p, Param(2, ShapeTypesArrayName)) == Some(ShapeTypesArray)
    requires RefAt(p, Param(3, InputPhaseTypesArrayPath)) == Some(StatsArray(PhaseTypesArray))
    requires RefAt(p, Param(3, InputShapeTypesArrayPath)) == Some(StatsArray(ShapeTypesArray))
    requires RefAt(p, Param(3, InputStatsArrayPath)) == Some(StatsArray(StatisticsArray))
    requires RefAt(p, Param(3, OutputCellAttributeMatrixPath)) == Some(VoxelArray(""))
    ensures SetupWired(p)
  {
  }

  lemma PrecipitationWiredFromSteps(p: Pipeline)
    requires NameAt(p, Param(1, DataContainerName)) == Some(VolumeContainer)
    requires NameAt(p, Param(1, CellAttributeMatrixName)) == Some(VoxelMatrix)
    requires NameAt(p, Param(3, CellPhasesArrayName)) == Some(PhasesArray)
    requires NameAt(p, Param(3, FeatureIdsArrayName)) == Some(FeatureIdsArray)
    requires NameAt(p, Param(3, FeaturePhasesArrayName)) == Some(PhasesArray)
    requires NameAt(p, Param(3, OutputCellFeatureAttributeMatrixName)) == Some(GrainMatrix)
    requires NameAt(p, Param(4, BoundaryCellsArrayName)) == Some(BoundaryCellsArray)
    requires RefAt(p, Param(4, FeatureIdsArrayPath)) == Some(VoxelArray(FeatureIdsArray))
    requires RefAt(p, Param(5, BoundaryCellsArrayPath)) == Some(VoxelArray(BoundaryCellsArray))
    requires RefAt(p, Param(5, CellPhasesArrayPath)) == Some(VoxelArray(PhasesArray))
    requires RefAt(p, Param(5, FeatureIdsArrayPath)) == Some(VoxelArray(FeatureIdsArray))
    requires RefAt(p, Param(5, FeaturePhasesArrayPath)) == Some(GrainArray(PhasesArray))
    ensures PrecipitationWired(p)
  {
  }

  lemma PrecipitationInputsWiredFromSteps(p: Pipeline)
    requires NameAt(p, Param(0, StatsGeneratorDataContainerName)) == Some(StatsContainer)
    requires NameAt(p, Param(0, CellEnsembleAttributeMatrixName)) == Some(EnsembleMatrix)
    requires NameAt(p, Param(0, PhaseTypesArrayName)) == Some(PhaseTypesArray)
    requires NameAt(p, Param(0, StatsDataArrayName)) == Some(StatisticsArray)
    requires NameAt(p, Param(1, DataContainerName)) == Some(VolumeContainer)
    requires NameAt(p, Param(2, ShapeTypesArrayName)) == Some(ShapeTypesArray)
    requires NameAt(p, Param(3, NumFeaturesArrayName)) == Some(NumFeaturesArray)
    requires NameAt(p, Param(3, OutputCellEnsembleAttributeMatrixName)) == Some(EnsembleMatrix)
    requires RefAt(p, Param(5, InputPhaseTypesArrayPath)) == Some(StatsArray(PhaseTypesArray))
    requires RefAt(p, Param(5, InputShapeTypesArrayPath)) == Some(StatsArray(ShapeTypesArray))
    requires RefAt(p, Param(5, InputStatsArrayPath)) == Some(StatsArray(StatisticsArray))
    requires RefAt(p, Param(5, NumFeaturesArrayPath)) == Some(ArrayRef(VolumeContainer, EnsembleMatrix, NumFeaturesArray))
    ensures PrecipitationInputsWired(p)
  {
  }

  lemma MatchingWiredFromSteps(p: Pipeline)
    requires NameAt(p, Param(1, DataContainerName)) == Some(VolumeContainer)
    requires NameAt(p, Param(1, CellAttributeMatrixName)) == Some(VoxelMatrix)
    requires NameAt(p, Param(3, FeatureIdsArrayName)) == Some(FeatureIdsArray)
    requires NameAt(p, Param(3, FeaturePhasesArrayName)) == Some(PhasesArray)
    requires NameAt(p, Param(3, OutputCellFeatureAttributeMatrixName)) == Some(GrainMatrix)
    requires NameAt(p, Param(3, NumFeaturesArrayName)) == Some(NumFeaturesArray)
    requires NameAt(p, Param(3, OutputCellEnsembleAttributeMatrixName)) == Some(EnsembleMatrix)
    requires RefAt(p, Param(6, CellFeatureAttributeMatrixPath)) == Some(GrainArray(""))
    requires RefAt(p, Param(6, FeatureIdsArrayPath)) == Some(VoxelArray(FeatureIdsArray))
    requires NameAt(p, Param(6, NeighborListArrayName)) == Some(NeighborListArray)
    requires NameAt(p, Param(6, SharedSurfaceAreaListArrayName)) == Some(SharedSurfaceAreaListArray)
    requires NameAt(p, Param(6, SurfaceFeaturesArrayName)) == Some(SurfaceFeaturesArray)
    requires RefAt(p, Param(7, FeatureIdsArrayPath)) == Some(VoxelArray(FeatureIdsArray))
    requires RefAt(p, Param(7, FeaturePhasesArrayPath)) == Some(GrainArray(PhasesArray))
    requires RefAt(p, Param(7, NeighborListArrayPath)) == Some(GrainArray(NeighborListArray))
    requires RefAt(p, Param(7, SharedSurfaceAreaListArrayPath)) == Some(GrainArray(SharedSurfaceAreaListArray))
    requires RefAt(p, Param(7, SurfaceFeaturesArrayPath)) == Some(GrainArray(SurfaceFeaturesArray))
    requires RefAt(p, Param(7, NumFeaturesArrayPath)) == Some(ArrayRef(VolumeContainer, EnsembleMatrix, NumFeaturesArray))
    ensures NeighborsWired(p)
    ensures MatchingWired(p)
  {
  }

  lemma StatsReadersWiredFromSteps(p: Pipeline)
    requires NameAt(p, Param(0, StatsGeneratorDataContainerName)) == Some(StatsContainer)
    requires NameAt(p, Param(0, CellEnsembleAttributeMatrixName)) == Some(EnsembleMatrix)
    requires NameAt(p, Param(0, PhaseTypesArrayName)) == Some(PhaseTypesArray)
    requires NameAt(p, Param(0, StatsDataArrayName)) == Some(StatisticsArray)
    requires NameAt(p, Param(0, CrystalStructuresArrayName)) == Some(CrystalStructuresArray)
    requires RefAt(p, Param(7, CrystalStructuresArrayPath)) == Some(StatsArray(CrystalStructuresArray))
    requires RefAt(p, Param(7, InputStatsArrayPath)) == Some(StatsArray(StatisticsArray))
    requires RefAt(p, Param(7, PhaseTypesArrayPath)) == Some(StatsArray(PhaseTypesArray))
    ensures MatchingInputsWired(p)
  {
  }

  lemma ColoringWiredFromSteps(p: Pipeline)
    requires NameAt(p, Param(0, StatsGeneratorDataContainerName)) == Some(StatsContainer)
    requires NameAt(p, Param(0, CellEnsembleAttributeMatrixName)) == Some(EnsembleMatrix)
    requires NameAt(p, Param(0, CrystalStructuresArrayName)) == Some(CrystalStructuresArray)
    requires NameAt(p, Param(1, DataContainerName)) == Some(VolumeContainer)
    requires NameAt(p, Param(1, CellAttributeMatrixName)) == Some(VoxelMatrix)
    requires NameAt(p, Param(3, CellPhasesArrayName)) == Some(PhasesArray)
    requires NameAt(p, Param(7, CellEulerAnglesArrayName)) == Some(EulerAnglesArray)
    requires RefAt(p, Param(8, CellEulerAnglesArrayPath)) == Some(VoxelArray(EulerAnglesArray))
    requires RefAt(p, Param(8, CellPhasesArrayPath)) == Some(VoxelArray(PhasesArray))
    requires RefAt(p, Param(8, CrystalStructuresArrayPath)) == Some(StatsArray(CrystalStructuresArray))
    requires RefAt(p, Param(8, GoodVoxelsArrayPath)) == Some(VoxelArray(""))
    requires IntAt(p, Param(8, UseGoodVoxels)) == Some(0)
    ensures ColoringWired(p)
  {
  }

  /** The assembled pipeline is wired, whatever its geometry and periodic flag. */
  lemma DocumentWiring(p: Pipeline, g: seq<int>, origin: seq<real>, resolution: seq<real>, periodic: bool, parent: string)
    requires |g| >= 3 && |origin| >= 3 && |resolution| >= 3
    requires p == SynthesisDocument(g, origin, resolution, periodic, parent)
    ensures SynthesisWiring(p)
  {
    var b := PeriodicFlag(periodic);
    StatsStep(p);
    VolumeStep(p, g[0], g[1], g[2], origin, resolution);
    ShapeStep(p);
    PackVoxelNames(p, b);
    PackGrainNames(p, b);
    PackEnsembleNames(p, b);
    PackInputs(p, b);
    PackFlags(p, b);
    BoundaryStep(p);
    PrecipitateVoxelInputs(p, b);
    PrecipitateFeatureInputs(p, b);
    PrecipitateEnsembleInputs(p, b);
    PrecipitateFlags(p, b);
    NeighborStep(p);
    MatchVoxelInputs(p);
    MatchOutputs(p);
    MatchNeighborInputs(p);
    MatchEnsembleInputs(p);
    IpfStep(p);
    IpfMask(p);
    SetupWiredFromSteps(p);
    PrecipitationWiredFromSteps(p);
    PrecipitationInputsWiredFromSteps(p);
    MatchingWiredFromSteps(p);
    StatsReadersWiredFromSteps(p);
    ColoringWiredFromSteps(p);
  }

  /** Both packing and precipitate insertion carry `int(periodic)` as their
      periodic-boundary flag, and the volume is laid out on the grid with the
      origin and spacing the pipeline was assembled with. */
  lemma DocumentGeometry(p: Pipeline, g: seq<int>, origin: seq<real>, resolution: seq<real>, periodic: bool, parent: string)
    requires |g| >= 3 && |origin| >= 3 && |resolution| >= 3
    requires p == SynthesisDocument(g, origin, resolution, periodic, parent)
    ensures IntAt(p, Param(3, PeriodicBoundaries)) == IntAt(p, Param(5, PeriodicBoundaries))
            == Some(if periodic then 1 else 0)
    ensures Lookup(p, Param(1, Dimensions)) == Some(XyzJson(JInt(g[0]), JInt(g[1]), JInt(g[2])))
    ensures Lookup(p, Param(1, Origin)) == Some(XyzJson(JReal(origin[0]), JReal(origin[1]), JReal(origin[2])))
    ensures Lookup(p, Param(1, Resolution)) == Some(XyzJson(JReal(resolution[0]), JReal(resolution[1]), JReal(resolution[2])))
  {
    PackFlags(p, PeriodicFlag(periodic));
    PrecipitateFlags(p, PeriodicFlag(periodic));
    VolumeGeometry(p, g[0], g[1], g[2], origin, resolution);
  }

  /** What a successful build places in the descriptor: the settled spacing
      (the given resolution, when there is one) and the origin (by default
      (0, 0, 0)) in step 1, and `int(periodic)` in steps 3 and 5. */
  lemma SynthesisPlacement(inputs: SynthesisInputs, parent: string)
    requires RvePipeline(inputs, parent).Ok?
    ensures ResolutionOf(inputs).Ok?
    ensures var p := RvePipeline(inputs, parent).value;
            var r := ResolutionOf(inputs).value;
            var o := OriginOf(inputs);
            && |r| >= 3 && |o| >= 3
            && Lookup(p, Param(1, Resolution)) == Some(XyzJson(JReal(r[0]), JReal(r[1]), JReal(r[2])))
            && Lookup(p, Param(1, Origin)) == Some(XyzJson(JReal(o[0]), JReal(o[1]), JReal(o[2])))
            && IntAt(p, Param(3, PeriodicBoundaries)) == Some(if inputs.periodic then 1 else 0)
            && IntAt(p, Param(5, PeriodicBoundaries)) == Some(if inputs.periodic then 1 else 0)
  {
    SynthesisBuilt(inputs, parent);
    var r := ResolutionOf(inputs).value;
    SynthesisAssembled(inputs.gridSize, OriginOf(inputs), r, inputs.periodic, parent);
    DocumentGeometry(RvePipeline(inputs, parent).value, inputs.gridSize, OriginOf(inputs), r, inputs.periodic, parent);
  }

  /** A successful build is a descriptor of ten filters, wired as
      `SynthesisWiring` states. */
  lemma SynthesisDescriptor(inputs: SynthesisInputs, parent: string, p: Pipeline)
    requires RvePipeline(inputs, parent) == Ok(p)
    ensures IsPipelineDescriptor(Render(p), 10)
    ensures SynthesisWiring(p)
  {
    SynthesisBuilt(inputs, parent);
    var r := ResolutionOf(inputs).value;
    SynthesisAssembled(inputs.gridSize, OriginOf(inputs), r, inputs.periodic, parent);
    SynthesisIsDescriptor(inputs.gridSize, OriginOf(inputs), r, inputs.periodic, parent);
    DocumentWiring(p, inputs.gridSize, OriginOf(inputs), r, inputs.periodic, parent);
  }
}
