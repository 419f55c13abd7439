/** `write_segment_grains_pipeline`: the eight-filter DREAM.3D pipeline that
    reads a per-voxel orientation table, converts Euler angles to quaternions
    and segments the voxels into grains by misorientation. */
module SegmentationPipeline {
  import opened Wrappers
  import opened NdArrays
  import opened Geometry
  import opened Decimal
  import opened PipelineJson

  /** The members of the volume element the builder reads: `grid_size`, and
      `origin` and `size`, which may be absent. */
  datatype VolumeElementGeometry = VolumeElementGeometry(
    gridSize: seq<int>,
    origin: Option<seq<real>>,
    size: Option<seq<real>>)

  const DefaultOrigin: seq<real> := [0.0, 0.0, 0.0]
  const DefaultSize: seq<real> := [1.0, 1.0, 1.0]

  function OriginOf(ve: VolumeElementGeometry): seq<real> {
    if ve.origin.Some? then ve.origin.value else DefaultOrigin
  }

  function SizeOf(ve: VolumeElementGeometry): seq<real> {
    if ve.size.Some? then ve.size.value else DefaultSize
  }

  /** A file beside the pipeline file, in the directory `parent`. */
  function SiblingFile(parent: string, name: string): string {
    parent + "/" + name
  }

  /** One line of the "Extents" block: `<axis> Extent: 0 to <g-1> (dimension: <g>)`. */
  function ExtentLine(axis: string, g: int): string {
    axis + " Extent: 0 to " + IntToString(g - 1) + " (dimension: " + IntToString(g) + ")\n"
  }

  const BoundsText :=
    "Bounds:\nX Range: 0.0 to 1.0 (delta: 1)\nY Range: 0.0 to 1.0 (delta: 1)\nZ Range: 0.0 to 1.0 (delta: 1)\n"

  function BoxDimensionsText(g0: int, g1: int, g2: int): string {
    "Extents:\n" + ExtentLine("X", g0) + ExtentLine("Y", g1) + ExtentLine("Z", g2) + BoundsText
  }

  /** For a positive dimension the extent line reads back as
      "0 to <g-1> (dimension: <g>)": both numbers are plain digit strings and
      the last voxel index is one less than the voxel count. */
  lemma ExtentLineReadsBack(axis: string, g: int)
    requires g >= 1
    ensures exists last: string, count: string ::
              && AllDigits(last) && AllDigits(count)
              && ExtentLine(axis, g) == axis + " Extent: 0 to " + last + " (dimension: " + count + ")\n"
              && StringToNat(last) + 1 == StringToNat(count) == g
  {
    NatStringRoundTrip(g - 1);
    NatStringRoundTrip(g);
    var last, count := NatToString(g - 1), NatToString(g);
    assert ExtentLine(axis, g) == axis + " Extent: 0 to " + last + " (dimension: " + count + ")\n";
  }

  // Containers, attribute matrices and arrays.
  const Container := "DataContainer"
  const CellMatrix := "CellData"
  const EnsembleMatrix := "EnsembleAttributeMatrix"
  const FeatureMatrix := "CellFeatureData"
  const PhaseColumn := "Phase"
  const Euler1Column := "Euler1"
  const Euler2Column := "Euler2"
  const Euler3Column := "Euler3"
  const EulersArray := "Eulers"
  const QuatsArray := "quats"
  const CrystalStructuresArray := "CrystalStructures"
  const PhaseTypesArray := "PhaseTypes"
  const ActiveArray := "Active"
  const FeatureIdsArray := "FeatureIds"
  const MaskContainer := "ImageDataContainer"
  const MaskArray := "Mask"

  // The DREAM.3D class name of each filter, its "Filter_Name".
  const CreateContainerClass := "CreateDataContainer"
  const CreateGeometryClass := "CreateGeometry"
  const ReadAsciiClass := "ReadASCIIData"
  const CombineClass := "CombineAttributeArrays"
  const ConvertClass := "ConvertOrientations"
  const EnsembleReaderClass := "EnsembleInfoReader"
  const SegmentClass := "EBSDSegmentFeatures"
  const WriterClass := "DataContainerWriter"

  /** The image cell data every imported array lands in. */
  const Cells := ArrayRef(Container, CellMatrix, "")

  /** Step 0, "Create Data Container". */
  function CreateContainerFilter(): Json {
    JObj(map[
      DataContainerName := JStr(Container),
      Filter_Name := JStr(CreateContainerClass)])
  }

  /** Step 1, "Create Geometry": an image geometry over the voxel grid, with
      the descriptive `boxDimensions` text computed from the grid. */
  function CreateGeometryFilter(g0: int, g1: int, g2: int, boxDimensions: string, origin: seq<real>, resolution: seq<real>): Json
    requires |origin| >= 3 && |resolution| >= 3
  {
    JObj(map[
      ArrayHandling := JInt(0),
      BoxDimensions := JStr(boxDimensions),
      DataContainerName := JStr(Container),
      Dimensions := XyzJson(JInt(g0), JInt(g1), JInt(g2)),
      Filter_Name := JStr(CreateGeometryClass),
      GeometryType := JInt(0),
      ImageCellAttributeMatrixName := JStr(CellMatrix),
      Origin := XyzJson(JReal(origin[0]), JReal(origin[1]), JReal(origin[2])),
      Resolution := XyzJson(JReal(resolution[0]), JReal(resolution[1]), JReal(resolution[2]))])
  }

  /** Step 2, "Import ASCII Data": the orientation table of `numberOfLines`
      lines over a grid of `g0` x `g1` x `g2` voxels. */
  function ReadAsciiFilter(g0: int, g1: int, g2: int, numberOfLines: int, parent: string): Json {
    JObj(map[
      Filter_Name := JStr(ReadAsciiClass),
      Wizard_AttributeMatrixType := JInt(3),
      Wizard_BeginIndex := JInt(2),
      Wizard_ConsecutiveDelimiters := JInt(1),
      Wizard_DataHeaders := JArr([JStr(PhaseColumn), JStr(Euler1Column), JStr(Euler2Column), JStr(Euler3Column)]),
      Wizard_DataTypes := JArr([JStr("int32_t"), JStr("float"), JStr("float"), JStr("float")]),
      Wizard_Delimiters := JStr(", "),
      Wizard_HeaderIsCustom := JBool(true),
      Wizard_HeaderLine := JInt(-1),
      Wizard_InputFilePath := JStr(SiblingFile(parent, "orientation_data.txt")),
      Wizard_NumberOfLines := JInt(numberOfLines),
      Wizard_SelectedPath := JPath(Cells),
      Wizard_TupleDims := JArr([JInt(g0), JInt(g1), JInt(g2)])])
  }

  /** Step 3, "Combine Attribute Arrays": the three Euler columns stacked into one array. */
  function CombineEulersFilter(): Json {
    JObj(map[
      Filter_Name := JStr(CombineClass),
      MoveValues := JInt(1),
      NormalizeData := JInt(0),
      SelectedDataArrayPaths := JArr([
        JPath(Cells.(name := Euler1Column)),
        JPath(Cells.(name := Euler2Column)),
        JPath(Cells.(name := Euler3Column))]),
      StackedDataArrayName := JStr(EulersArray)])
  }

  /** Step 4, "Convert Orientation Representation": Euler angles (type 0) to quaternions (type 2). */
  function ConvertOrientationsFilter(): Json {
    JObj(map[
      Filter_Name := JStr(ConvertClass),
      InputOrientationArrayPath := JPath(Cells.(name := EulersArray)),
      InputType := JInt(0),
      OutputOrientationArrayName := JStr(QuatsArray),
      OutputType := JInt(2)])
  }

  /** Step 5, "Import Ensemble Info File". */
  function EnsembleReaderFilter(parent: string): Json {
    JObj(map[
      CellEnsembleAttributeMatrixName := JStr(EnsembleMatrix),
      CrystalStructuresArrayName := JStr(CrystalStructuresArray),
      DataContainerName := JStr(Container),
      Filter_Name := JStr(EnsembleReaderClass),
      InputFile := JStr(SiblingFile(parent, "ensemble_data.txt")),
      PhaseTypesArrayName := JStr(PhaseTypesArray)])
  }

  /** Step 6, "Segment Features (Misorientation)" with a tolerance of 7 degrees. */
  function SegmentFeaturesFilter(): Json {
    JObj(map[
      ActiveArrayName := JStr(ActiveArray),
      CellFeatureAttributeMatrixName := JStr(FeatureMatrix),
      CellPhasesArrayPath := JPath(Cells.(name := PhaseColumn)),
      CrystalStructuresArrayPath :=
        JPath(ArrayRef(Container, EnsembleMatrix, CrystalStructuresArray)),
      FeatureIdsArrayName := JStr(FeatureIdsArray),
      Filter_Name := JStr(SegmentClass),
      GoodVoxelsArrayPath := JPath(ArrayRef(MaskContainer, CellMatrix, MaskArray)),
      MisorientationTolerance := JInt(7),
      QuatsArrayPath := JPath(Cells.(name := QuatsArray)),
      UseGoodVoxels := JInt(0)])
  }

  /** Step 7, "Write DREAM.3D Data File". */
  function WriterFilter(parent: string): Json {
    JObj(map[
      Filter_Name := JStr(WriterClass),
      OutputFile := JStr(SiblingFile(parent, "pipeline.dream3d")),
      WriteTimeSeries := JInt(0),
      WriteXdmfFile := JInt(1)])
  }

  function SegmentationMetadata(): Json {
    JObj(map[
      Name := JStr("test_pipeline_2"),
      Number_Filters := JInt(8),
      Version := JInt(6)])
  }

  /** The pipeline once the geometry, the box text and the table's line count
      are known: the eight filters in execution order. */
  function SegmentationDocument(g: seq<int>, origin: seq<real>, resolution: seq<real>, box: string, lines: int, parent: string): (p: Pipeline)
    requires |g| >= 3 && |origin| >= 3 && |resolution| >= 3
    ensures |p.filters| == 8
    ensures p.filters[0] == CreateContainerFilter()
    ensures p.filters[1] == CreateGeometryFilter(g[0], g[1], g[2], box, origin, resolution)
    ensures p.filters[2] == ReadAsciiFilter(g[0], g[1], g[2], lines, parent)
    ensures p.filters[3] == CombineEulersFilter()
    ensures p.filters[4] == ConvertOrientationsFilter()
    ensures p.filters[5] == EnsembleReaderFilter(parent)
    ensures p.filters[6] == SegmentFeaturesFilter()
    ensures p.filters[7] == WriterFilter(parent)
  {
    Pipeline(
      [ CreateContainerFilter(),
        CreateGeometryFilter(g[0], g[1], g[2], box, origin, resolution),
        ReadAsciiFilter(g[0], g[1], g[2], lines, parent),
        CombineEulersFilter(),
        ConvertOrientationsFilter(),
        EnsembleReaderFilter(parent),
        SegmentFeaturesFilter(),
        WriterFilter(parent)],
      SegmentationMetadata())
  }

  /** `write_segment_grains_pipeline` without the file write: the descriptor, or
      the exception the source raises. The resolution is computed before any
      list is indexed, so a zero dimension wins over a short list. */
  function SegmentGrainsPipeline(ve: VolumeElementGeometry, parent: string): Result<Pipeline> {
    var origin := OriginOf(ve);
    var resolution :- ResolutionFromSize(SizeOf(ve), ve.gridSize);
    AssembleSegmentation(ve.gridSize, origin, resolution, parent)
  }

  /** The descriptor's literal, which reads the first three entries of the
      grid, the origin and the resolution. */
  function AssembleSegmentation(g: seq<int>, origin: seq<real>, resolution: seq<real>, parent: string): Result<Pipeline> {
    if |g| < 3 || |origin| < 3 || |resolution| < 3 then Err(IndexError)
    else Ok(SegmentationDocument(g, origin, resolution, BoxDimensionsText(g[0], g[1], g[2]), Product(g) + 1, parent))
  }

  /** The builder fails exactly when a grid dimension paired with a size is
      zero (`ZeroDivisionError`) or when `grid_size`, `origin` or `size` has
      fewer than three entries (`IndexError`). */
  lemma SegmentationFailures(ve: VolumeElementGeometry, parent: string)
    ensures var size := SizeOf(ve);
            var zeroDim := exists k :: 0 <= k < Min(|size|, |ve.gridSize|) && ve.gridSize[k] == 0;
            var short := |ve.gridSize| < 3 || |OriginOf(ve)| < 3 || |size| < 3;
            && (SegmentGrainsPipeline(ve, parent).Err? <==> zeroDim || short)
            && (zeroDim ==> SegmentGrainsPipeline(ve, parent) == Err(ZeroDivisionError))
            && (!zeroDim && short ==> SegmentGrainsPipeline(ve, parent) == Err(IndexError))
  {
  }

  /** A successful build is the pipeline assembled from the volume element's
      grid, its origin (by default (0, 0, 0)) and the resolution derived from
      its size (by default (1, 1, 1)). */
  lemma SegmentationBuilt(ve: VolumeElementGeometry, parent: string)
    requires SegmentGrainsPipeline(ve, parent).Ok?
    ensures ResolutionFromSize(SizeOf(ve), ve.gridSize).Ok?
    ensures SegmentGrainsPipeline(ve, parent)
            == AssembleSegmentation(ve.gridSize, OriginOf(ve), ResolutionFromSize(SizeOf(ve), ve.gridSize).value, parent)
  {
  }

  /** An assembled pipeline carries the box text of the grid and a table of
      one line per voxel plus the header line. */
  lemma Assembled(g: seq<int>, origin: seq<real>, resolution: seq<real>, parent: string)
    requires AssembleSegmentation(g, origin, resolution, parent).Ok?
    ensures |g| >= 3 && |origin| >= 3 && |resolution| >= 3
    ensures AssembleSegmentation(g, origin, resolution, parent).value
            == SegmentationDocument(g, origin, resolution, BoxDimensionsText(g[0], g[1], g[2]), Product(g) + 1, parent)
  {
  }

  /** Whatever the geometry, the assembled pipeline is a descriptor of eight filters. */
  lemma DocumentIsDescriptor(g: seq<int>, origin: seq<real>, resolution: seq<real>, box: string, lines: int, parent: string)
    requires |g| >= 3 && |origin| >= 3 && |resolution| >= 3
    ensures IsPipelineDescriptor(Render(SegmentationDocument(g, origin, resolution, box, lines, parent)), 8)
  {
    RenderIsDescriptor(SegmentationDocument(g, origin, resolution, box, lines, parent));
  }

  // What each filter of a pipeline holds, stated for any pipeline with that
  // filter at that step so that the other filters stay out of the proof.

  lemma ContainerStep(p: Pipeline)
    requires |p.filters| >= 1 && p.filters[0] == CreateContainerFilter()
    ensures NameAt(p, Param(0, DataContainerName)) == Some(Container)
  {
  }

  lemma GeometryStep(p: Pipeline, g0: int, g1: int, g2: int, box: string, origin: seq<real>, resolution: seq<real>)
    requires |origin| >= 3 && |resolution| >= 3
    requires |p.filters| >= 2 && p.filters[1] == CreateGeometryFilter(g0, g1, g2, box, origin, resolution)
    ensures NameAt(p, Param(1, DataContainerName)) == Some(Container)
    ensures NameAt(p, Param(1, ImageCellAttributeMatrixName)) == Some(CellMatrix)
    ensures Lookup(p, Param(1, Dimensions)) == Some(XyzJson(JInt(g0), JInt(g1), JInt(g2)))
    ensures NameAt(p, Param(1, BoxDimensions)) == Some(box)
    ensures Lookup(p, Param(1, Origin)) == Some(XyzJson(JReal(origin[0]), JReal(origin[1]), JReal(origin[2])))
    ensures Lookup(p, Param(1, Resolution)) == Some(XyzJson(JReal(resolution[0]), JReal(resolution[1]), JReal(resolution[2])))
  {
  }

  lemma TableStep(p: Pipeline, g0: int, g1: int, g2: int, lines: int, parent: string)
    requires |p.filters| >= 3 && p.filters[2] == ReadAsciiFilter(g0, g1, g2, lines, parent)
    ensures RefAt(p, Param(2, Wizard_SelectedPath)) == Some(Cells)
    ensures Lookup(p, Param(2, Wizard_TupleDims)) == Some(JArr([JInt(g0), JInt(g1), JInt(g2)]))
    ensures IntAt(p, Param(2, Wizard_NumberOfLines)) == Some(lines)
  {
  }

  lemma TableHeaders(p: Pipeline, g0: int, g1: int, g2: int, lines: int, parent: string)
    requires |p.filters| >= 3 && p.filters[2] == ReadAsciiFilter(g0, g1, g2, lines, parent)
    ensures NameAt(p, Item(2, Wizard_DataHeaders, 0)) == Some(PhaseColumn)
    ensures NameAt(p, Item(2, Wizard_DataHeaders, 1)) == Some(Euler1Column)
    ensures NameAt(p, Item(2, Wizard_DataHeaders, 2)) == Some(Euler2Column)
    ensures NameAt(p, Item(2, Wizard_DataHeaders, 3)) == Some(Euler3Column)
  {
  }

  lemma TableFormat(p: Pipeline, g0: int, g1: int, g2: int, lines: int, parent: string)
    requires |p.filters| >= 3 && p.filters[2] == ReadAsciiFilter(g0, g1, g2, lines, parent)
    ensures NameAt(p, Param(2, Wizard_Delimiters)) == Some(", ")
    ensures IntAt(p, Param(2, Wizard_ConsecutiveDelimiters)) == Some(1)
    ensures IntAt(p, Param(2, Wizard_BeginIndex)) == Some(2)
    ensures NameAt(p, Item(2, Wizard_DataTypes, 0)) == Some("int32_t")
    ensures forall k :: 1 <= k < 4 ==> NameAt(p, Item(2, Wizard_DataTypes, k)) == Some("float")
  {
  }

  lemma CombineStep(p: Pipeline)
    requires |p.filters| >= 4 && p.filters[3] == CombineEulersFilter()
    ensures RefAt(p, Item(3, SelectedDataArrayPaths, 0)) == Some(Cells.(name := Euler1Column))
    ensures RefAt(p, Item(3, SelectedDataArrayPaths, 1)) == Some(Cells.(name := Euler2Column))
    ensures RefAt(p, Item(3, SelectedDataArrayPaths, 2)) == Some(Cells.(name := Euler3Column))
    ensures NameAt(p, Param(3, StackedDataArrayName)) == Some(EulersArray)
  {
  }

  lemma ConvertStep(p: Pipeline)
    requires |p.filters| >= 5 && p.filters[4] == ConvertOrientationsFilter()
    ensures RefAt(p, Param(4, InputOrientationArrayPath)) == Some(Cells.(name := EulersArray))
    ensures NameAt(p, Param(4, OutputOrientationArrayName)) == Some(QuatsArray)
  {
  }

  lemma EnsembleStep(p: Pipeline, parent: string)
    requires |p.filters| >= 6 && p.filters[5] == EnsembleReaderFilter(parent)
    ensures NameAt(p, Param(5, DataContainerName)) == Some(Container)
    ensures NameAt(p, Param(5, CellEnsembleAttributeMatrixName)) == Some(EnsembleMatrix)
    ensures NameAt(p, Param(5, CrystalStructuresArrayName)) == Some(CrystalStructuresArray)
  {
  }

  lemma SegmentStep(p: Pipeline)
    requires |p.filters| >= 7 && p.filters[6] == SegmentFeaturesFilter()
    ensures RefAt(p, Param(6, QuatsArrayPath)) == Some(Cells.(name := QuatsArray))
    ensures RefAt(p, Param(6, CellPhasesArrayPath)) == Some(Cells.(name := PhaseColumn))
  {
  }

  lemma SegmentEnsemble(p: Pipeline)
    requires |p.filters| >= 7 && p.filters[6] == SegmentFeaturesFilter()
    ensures RefAt(p, Param(6, CrystalStructuresArrayPath))
            == Some(ArrayRef(Container, EnsembleMatrix, CrystalStructuresArray))
  {
  }

  lemma SegmentMask(p: Pipeline)
    requires |p.filters| >= 7 && p.filters[6] == SegmentFeaturesFilter()
    ensures RefAt(p, Param(6, GoodVoxelsArrayPath)) == Some(ArrayRef(MaskContainer, CellMatrix, MaskArray))
    ensures IntAt(p, Param(6, UseGoodVoxels)) == Some(0)
  {
  }

  /** The geometry step and the table import describe the same grid: the
      geometry's dimensions and the table's tuple dimensions are both the grid,
      and the table's line count, box text, origin and resolution are the ones
      the pipeline was assembled with. */
  lemma DocumentGeometry(p: Pipeline, g: seq<int>, origin: seq<real>, resolution: seq<real>, box: string, lines: int, parent: string)
    requires |g| >= 3 && |origin| >= 3 && |resolution| >= 3
    requires p == SegmentationDocument(g, origin, resolution, box, lines, parent)
    ensures Lookup(p, Param(1, Dimensions)) == Some(XyzJson(JInt(g[0]), JInt(g[1]), JInt(g[2])))
    ensures Lookup(p, Param(2, Wizard_TupleDims)) == Some(JArr([JInt(g[0]), JInt(g[1]), JInt(g[2])]))
    ensures NameAt(p, Param(1, BoxDimensions)) == Some(box)
    ensures IntAt(p, Param(2, Wizard_NumberOfLines)) == Some(lines)
    ensures Lookup(p, Param(1, Origin)) == Some(XyzJson(JReal(origin[0]), JReal(origin[1]), JReal(origin[2])))
    ensures Lookup(p, Param(1, Resolution)) == Some(XyzJson(JReal(resolution[0]), JReal(resolution[1]), JReal(resolution[2])))
  {
    GeometryStep(p, g[0], g[1], g[2], box, origin, resolution);
    TableStep(p, g[0], g[1], g[2], lines, parent);
  }

  /** How the filters of the segmentation pipeline are wired: every data-array
      path a filter reads names what an earlier filter produced. The geometry
      step's paths to shared vertex, edge, face and cell lists and to bounds
      arrays are not among them: they are not modelled, and an image geometry
      (`GeometryType` 0) does not read them. */
  predicate SegmentationWiring(p: Pipeline) {
    ImportWiring(p) && OrientationWiring(p) && EnsembleWiring(p)
  }

  /** The table lands in the cell data of step 1's geometry in step 0's
      container, and the Euler columns stacked in step 3 are the table's
      headers 1 to 3. */
  predicate ImportWiring(p: Pipeline) {
    var container := From(Param(0, DataContainerName));
    var cells := From(Param(1, ImageCellAttributeMatrixName));
    && Refers(p, Param(2, Wizard_SelectedPath), container, cells, Blank)
    && Refers(p, Item(3, SelectedDataArrayPaths, 0), container, cells, From(Item(2, Wizard_DataHeaders, 1)))
    && Refers(p, Item(3, SelectedDataArrayPaths, 1), container, cells, From(Item(2, Wizard_DataHeaders, 2)))
    && Refers(p, Item(3, SelectedDataArrayPaths, 2), container, cells, From(Item(2, Wizard_DataHeaders, 3)))
  }

  /** Step 4 converts the stacked "Eulers" into "quats", and step 6 segments
      on those quaternions and on the table's "Phase" column. */
  predicate OrientationWiring(p: Pipeline) {
    var container := From(Param(0, DataContainerName));
    var cells := From(Param(1, ImageCellAttributeMatrixName));
    && Refers(p, Param(4, InputOrientationArrayPath), container, cells, From(Param(3, StackedDataArrayName)))
    && Refers(p, Param(6, QuatsArrayPath), container, cells, From(Param(4, OutputOrientationArrayName)))
    && Refers(p, Param(6, CellPhasesArrayPath), container, cells, From(Item(2, Wizard_DataHeaders, 0)))
  }

  /** Step 6 reads the "CrystalStructures" that step 5 imports into the same
      container as the voxels; the one path to a container no step creates,
      the mask of step 6, is switched off. */
  predicate EnsembleWiring(p: Pipeline) {
    && Refers(p, Param(6, CrystalStructuresArrayPath), From(Param(5, DataContainerName)),
              From(Param(5, CellEnsembleAttributeMatrixName)), From(Param(5, CrystalStructuresArrayName)))
    && NameAt(p, Param(5, DataContainerName)) == NameAt(p, Param(0, DataContainerName))
    && RefAt(p, Param(6, GoodVoxelsArrayPath)).Some?
    && Some(RefAt(p, Param(6, GoodVoxelsArrayPath)).value.container) != NameAt(p, Param(0, DataContainerName))
    && IntAt(p, Param(6, UseGoodVoxels)) == Some(0)
  }

  lemma ImportWiringFromSteps(p: Pipeline)
    requires NameAt(p, Param(0, DataContainerName)) == Some(Container)
    requires NameAt(p, Param(1, ImageCellAttributeMatrixName)) == Some(CellMatrix)
    requires RefAt(p, Param(2, Wizard_SelectedPath)) == Some(Cells)
    requires NameAt(p, Item(2, Wizard_DataHeaders, 1)) == Some(Euler1Column)
    requires NameAt(p, Item(2, Wizard_DataHeaders, 2)) == Some(Euler2Column)
    requires NameAt(p, Item(2, Wizard_DataHeaders, 3)) == Some(Euler3Column)
    requires RefAt(p, Item(3, SelectedDataArrayPaths, 0)) == Some(Cells.(name := Euler1Column))
    requires RefAt(p, Item(3, SelectedDataArrayPaths, 1)) == Some(Cells.(name := Euler2Column))
    requires RefAt(p, Item(3, SelectedDataArrayPaths, 2)) == Some(Cells.(name := Euler3Column))
    ensures ImportWiring(p)
  {
  }

  lemma OrientationWiringFromSteps(p: Pipeline)
    requires NameAt(p, Param(0, DataContainerName)) == Some(Container)
    requires NameAt(p, Param(1, ImageCellAttributeMatrixName)) == Some(CellMatrix)
    requires NameAt(p, Item(2, Wizard_DataHeaders, 0)) == Some(PhaseColumn)
    requires NameAt(p, Param(3, StackedDataArrayName)) == Some(EulersArray)
    requires RefAt(p, Param(4, InputOrientationArrayPath)) == Some(Cells.(name := EulersArray))
    requires NameAt(p, Param(4, OutputOrientationArrayName)) == Some(QuatsArray)
    requires RefAt(p, Param(6, QuatsArrayPath)) == Some(Cells.(name := QuatsArray))
    requires RefAt(p, Param(6, CellPhasesArrayPath)) == Some(Cells.(name := PhaseColumn))
    ensures OrientationWiring(p)
  {
  }

  lemma EnsembleWiringFromSteps(p: Pipeline)
    requires NameAt(p, Param(0, DataContainerName)) == Some(Container)
    requires NameAt(p, Param(5, DataContainerName)) == Some(Container)
    requires NameAt(p, Param(5, CellEnsembleAttributeMatrixName)) == Some(EnsembleMatrix)
    requires NameAt(p, Param(5, CrystalStructuresArrayName)) == Some(CrystalStructuresArray)
    requires RefAt(p, Param(6, CrystalStructuresArrayPath))
             == Some(ArrayRef(Container, EnsembleMatrix, CrystalStructuresArray))
    requires RefAt(p, Param(6, GoodVoxelsArrayPath)) == Some(ArrayRef(MaskContainer, CellMatrix, MaskArray))
    requires IntAt(p, Param(6, UseGoodVoxels)) == Some(0)
    ensures EnsembleWiring(p)
  {
  }

  /** The assembled pipeline is wired, whatever its geometry (as far as
      `SegmentationWiring` goes: the geometry step's unused list and bounds
      paths are not modelled). */
  lemma DocumentWiring(p: Pipeline, g: seq<int>, origin: seq<real>, resolution: seq<real>, box: string, lines: int, parent: string)
    requires |g| >= 3 && |origin| >= 3 && |resolution| >= 3
    requires p == SegmentationDocument(g, origin, resolution, box, lines, parent)
    ensures SegmentationWiring(p)
  {
    ContainerStep(p);
    GeometryStep(p, g[0], g[1], g[2], box, origin, resolution);
    TableStep(p, g[0], g[1], g[2], lines, parent);
    TableHeaders(p, g[0], g[1], g[2], lines, parent);
    CombineStep(p);
    ConvertStep(p);
    EnsembleStep(p, parent);
    SegmentStep(p);
    SegmentEnsemble(p);
    SegmentMask(p);
    ImportWiringFromSteps(p);
    OrientationWiringFromSteps(p);
    EnsembleWiringFromSteps(p);
  }

  /** What a successful build places in the descriptor: the grid as the
      geometry's dimensions and the table's tuple dimensions, its box text,
      the origin (by default (0, 0, 0)) and the spacing derived from the size
      (by default (1, 1, 1)). */
  lemma SegmentationPlacement(ve: VolumeElementGeometry, parent: string)
    requires SegmentGrainsPipeline(ve, parent).Ok?
    ensures ResolutionFromSize(SizeOf(ve), ve.gridSize).Ok?
    ensures var p := SegmentGrainsPipeline(ve, parent).value;
            var g := ve.gridSize;
            var r := ResolutionFromSize(SizeOf(ve), ve.gridSize).value;
            var o := OriginOf(ve);
            && |g| >= 3 && |r| >= 3 && |o| >= 3
            && Lookup(p, Param(1, Dimensions)) == Some(XyzJson(JInt(g[0]), JInt(g[1]), JInt(g[2])))
            && Lookup(p, Param(2, Wizard_TupleDims)) == Some(JArr([JInt(g[0]), JInt(g[1]), JInt(g[2])]))
            && NameAt(p, Param(1, BoxDimensions)) == Some(BoxDimensionsText(g[0], g[1], g[2]))
            && Lookup(p, Param(1, Origin)) == Some(XyzJson(JReal(o[0]), JReal(o[1]), JReal(o[2])))
            && Lookup(p, Param(1, Resolution)) == Some(XyzJson(JReal(r[0]), JReal(r[1]), JReal(r[2])))
  {
    SegmentationBuilt(ve, parent);
    var g := ve.gridSize;
    var r := ResolutionFromSize(SizeOf(ve), g).value;
    Assembled(g, OriginOf(ve), r, parent);
    DocumentGeometry(SegmentGrainsPipeline(ve, parent).value, g, OriginOf(ve), r,
                     BoxDimensionsText(g[0], g[1], g[2]), Product(g) + 1, parent);
  }

  /** A successful build declares one table line per voxel plus the header line. */
  lemma SegmentationLineCount(ve: VolumeElementGeometry, parent: string, p: Pipeline)
    requires SegmentGrainsPipeline(ve, parent) == Ok(p)
    ensures IntAt(p, Param(2, Wizard_NumberOfLines)) == Some(Product(ve.gridSize) + 1)
  {
    SegmentationBuilt(ve, parent);
    var g := ve.gridSize;
    var r := ResolutionFromSize(SizeOf(ve), g).value;
    AssembledLineCount(g, OriginOf(ve), r, parent);
  }

  lemma AssembledLineCount(g: seq<int>, origin: seq<real>, resolution: seq<real>, parent: string)
    requires AssembleSegmentation(g, origin, resolution, parent).Ok?
    ensures IntAt(AssembleSegmentation(g, origin, resolution, parent).value, Param(2, Wizard_NumberOfLines)) == Some(Product(g) + 1)
  {
    Assembled(g, origin, resolution, parent);
    TableStep(AssembleSegmentation(g, origin, resolution, parent).value, g[0], g[1], g[2], Product(g) + 1, parent);
  }

  /** A successful build is a descriptor of eight filters, wired as
      `SegmentationWiring` states. */
  lemma SegmentationDescriptor(ve: VolumeElementGeometry, parent: string, p: Pipeline)
    requires SegmentGrainsPipeline(ve, parent) == Ok(p)
    ensures IsPipelineDescriptor(Render(p), 8)
    ensures SegmentationWiring(p)
  {
    SegmentationBuilt(ve, parent);
    var g := ve.gridSize;
    var o := OriginOf(ve);
    var r := ResolutionFromSize(SizeOf(ve), g).value;
    Assembled(g, o, r, parent);
    var box := BoxDimensionsText(g[0], g[1], g[2]);
    DocumentIsDescriptor(g, o, r, box, Product(g) + 1, parent);
    DocumentWiring(p, g, o, r, box, Product(g) + 1, parent);
  }

  /** The number of voxels of an `x` by `y` by `z` image geometry. */
  function GridVoxels(x: int, y: int, z: int): int {
    x * y * z
  }

  /** A successful build declares, besides the header line, one table line
      per voxel of the geometry step's `x` by `y` by `z` grid times the
      product of any entries of `grid_size` beyond the third: for a
      three-entry grid, exactly one line per voxel of the geometry. */
  lemma SegmentationVoxelCount(ve: VolumeElementGeometry, parent: string, p: Pipeline)
    requires SegmentGrainsPipeline(ve, parent) == Ok(p)
    ensures var g := ve.gridSize;
            && |g| >= 3
            && Lookup(p, Param(1, Dimensions)) == Some(XyzJson(JInt(g[0]), JInt(g[1]), JInt(g[2])))
            && IntAt(p, Param(2, Wizard_NumberOfLines)) == Some(Product(g) + 1)
            && Product(g) == GridVoxels(g[0], g[1], g[2]) * ProductFrom(g, 3)
            && (|g| == 3 ==> Product(g) == GridVoxels(g[0], g[1], g[2]))
  {
    SegmentationPlacement(ve, parent);
    SegmentationLineCount(ve, parent, p);
    ProductSplitsAtThree(ve.gridSize);
    if |ve.gridSize| == 3 {
      ProductOfThree(ve.gridSize);
    }
  }
}
