/** The JSON-like documents both pipeline builders emit, and what a well-formed
    DREAM.3D pipeline descriptor is: filter objects under the keys "0" .. "N-1",
    a "PipelineBuilder" metadata object whose "Number_Filters" is N, and filter
    parameters that name data arrays by (container, attribute matrix, array). */
module PipelineJson {
  import opened Wrappers
  import opened Decimal

  /** The member names that occur in the descriptors: the step indices, the
      metadata key and the filter parameter names. `KeyText` gives the exact
      text each one is written as. */
  datatype Key =
    | Step(index: nat)
    | PipelineBuilder | X | Y | Z | AttributeMatrixName | DataArrayName
    | DataContainerNameOfPath | Name | Number_Filters | Version | Filter_Name
    | DataContainerName | ArrayHandling | BoxDimensions | Dimensions | GeometryType
    | ImageCellAttributeMatrixName | Origin | Resolution | Wizard_AttributeMatrixType
    | Wizard_BeginIndex | Wizard_ConsecutiveDelimiters | Wizard_DataHeaders
    | Wizard_DataTypes | Wizard_Delimiters | Wizard_HeaderIsCustom | Wizard_HeaderLine
    | Wizard_InputFilePath | Wizard_NumberOfLines | Wizard_SelectedPath
    | Wizard_TupleDims | MoveValues | NormalizeData | SelectedDataArrayPaths
    | StackedDataArrayName | InputOrientationArrayPath | InputType
    | OutputOrientationArrayName | OutputType | CellEnsembleAttributeMatrixName
    | CrystalStructuresArrayName | InputFile | PhaseTypesArrayName | ActiveArrayName
    | CellFeatureAttributeMatrixName | CellPhasesArrayPath
    | CrystalStructuresArrayPath | FeatureIdsArrayName | GoodVoxelsArrayPath
    | MisorientationTolerance | QuatsArrayPath | UseGoodVoxels | OutputFile
    | WriteTimeSeries | WriteXdmfFile | StatsDataArrayName
    | StatsGeneratorDataContainerName | CellAttributeMatrixName
    | EstimateNumberOfFeatures | InputPhaseTypesArrayPath | InputStatsArrayPath
    | ShapeTypeData | ShapeTypesArrayName | CellPhasesArrayName
    | FeaturePhasesArrayName | FeatureGeneration | InputShapeTypesArrayPath
    | MaskArrayPath | NumFeaturesArrayName | OutputCellAttributeMatrixPath
    | OutputCellEnsembleAttributeMatrixName | OutputCellFeatureAttributeMatrixName
    | PeriodicBoundaries | UseMask | BoundaryCellsArrayName | FeatureIdsArrayPath
    | BoundaryCellsArrayPath | FeaturePhasesArrayPath | HavePrecips | MatchRDF
    | NumFeaturesArrayPath | CellFeatureAttributeMatrixPath | NeighborListArrayName
    | NumNeighborsArrayName | SharedSurfaceAreaListArrayName | StoreBoundaryCells
    | StoreSurfaceFeatures | SurfaceFeaturesArrayName | AvgQuatsArrayName
    | CellEulerAnglesArrayName | FeatureEulerAnglesArrayName | MaxIterations
    | NeighborListArrayPath | PhaseTypesArrayPath | SharedSurfaceAreaListArrayPath
    | SurfaceFeaturesArrayPath | VolumesArrayName | CellEulerAnglesArrayPath
    | CellIPFColorsArrayName | ReferenceDir

  /** The JSON text of a member name. */
  function KeyText(k: Key): string {
    match k
    case Step(i) => NatToString(i)
    case PipelineBuilder => "PipelineBuilder"
    case X => "x"
    case Y => "y"
    case Z => "z"
    case AttributeMatrixName => "Attribute Matrix Name"
    case DataArrayName => "Data Array Name"
    case DataContainerNameOfPath => "Data Container Name"
    case Name => "Name"
    case Number_Filters => "Number_Filters"
    case Version => "Version"
    case Filter_Name => "Filter_Name"
    case DataContainerName => "DataContainerName"
    case ArrayHandling => "ArrayHandling"
    case BoxDimensions => "BoxDimensions"
    case Dimensions => "Dimensions"
    case GeometryType => "GeometryType"
    case ImageCellAttributeMatrixName => "ImageCellAttributeMatrixName"
    case Origin => "Origin"
    case Resolution => "Resolution"
    case Wizard_AttributeMatrixType => "Wizard_AttributeMatrixType"
    case Wizard_BeginIndex => "Wizard_BeginIndex"
    case Wizard_ConsecutiveDelimiters => "Wizard_ConsecutiveDelimiters"
    case Wizard_DataHeaders => "Wizard_DataHeaders"
    case Wizard_DataTypes => "Wizard_DataTypes"
    case Wizard_Delimiters => "Wizard_Delimiters"
    case Wizard_HeaderIsCustom => "Wizard_HeaderIsCustom"
    case Wizard_HeaderLine => "Wizard_HeaderLine"
    case Wizard_InputFilePath => "Wizard_InputFilePath"
    case Wizard_NumberOfLines => "Wizard_NumberOfLines"
    case Wizard_SelectedPath => "Wizard_SelectedPath"
    case Wizard_TupleDims => "Wizard_TupleDims"
    case MoveValues => "MoveValues"
    case NormalizeData => "NormalizeData"
    case SelectedDataArrayPaths => "SelectedDataArrayPaths"
    case StackedDataArrayName => "StackedDataArrayName"
    case InputOrientationArrayPath => "InputOrientationArrayPath"
    case InputType => "InputType"
    case OutputOrientationArrayName => "OutputOrientationArrayName"
    case OutputType => "OutputType"
    case CellEnsembleAttributeMatrixName => "CellEnsembleAttributeMatrixName"
    case CrystalStructuresArrayName => "CrystalStructuresArrayName"
    case InputFile => "InputFile"
    case PhaseTypesArrayName => "PhaseTypesArrayName"
    case ActiveArrayName => "ActiveArrayName"
    case CellFeatureAttributeMatrixName => "CellFeatureAttributeMatrixName"
    case CellPhasesArrayPath => "CellPhasesArrayPath"
    case CrystalStructuresArrayPath => "CrystalStructuresArrayPath"
    case FeatureIdsArrayName => "FeatureIdsArrayName"
    case GoodVoxelsArrayPath => "GoodVoxelsArrayPath"
    case MisorientationTolerance => "MisorientationTolerance"
    case QuatsArrayPath => "QuatsArrayPath"
    case UseGoodVoxels => "UseGoodVoxels"
    case OutputFile => "OutputFile"
    case WriteTimeSeries => "WriteTimeSeries"
    case WriteXdmfFile => "WriteXdmfFile"
    case StatsDataArrayName => "StatsDataArrayName"
    case StatsGeneratorDataContainerName => "StatsGeneratorDataContainerName"
    case CellAttributeMatrixName => "CellAttributeMatrixName"
    case EstimateNumberOfFeatures => "EstimateNumberOfFeatures"
    case InputPhaseTypesArrayPath => "InputPhaseTypesArrayPath"
    case InputStatsArrayPath => "InputStatsArrayPath"
    case ShapeTypeData => "ShapeTypeData"
    case ShapeTypesArrayName => "ShapeTypesArrayName"
    case CellPhasesArrayName => "CellPhasesArrayName"
    case FeaturePhasesArrayName => "FeaturePhasesArrayName"
    case FeatureGeneration => "FeatureGeneration"
    case InputShapeTypesArrayPath => "InputShapeTypesArrayPath"
    case MaskArrayPath => "MaskArrayPath"
    case NumFeaturesArrayName => "NumFeaturesArrayName"
    case OutputCellAttributeMatrixPath => "OutputCellAttributeMatrixPath"
    case OutputCellEnsembleAttributeMatrixName => "OutputCellEnsembleAttributeMatrixName"
    case OutputCellFeatureAttributeMatrixName => "OutputCellFeatureAttributeMatrixName"
    case PeriodicBoundaries => "PeriodicBoundaries"
    case UseMask => "UseMask"
    case BoundaryCellsArrayName => "BoundaryCellsArrayName"
    case FeatureIdsArrayPath => "FeatureIdsArrayPath"
    case BoundaryCellsArrayPath => "BoundaryCellsArrayPath"
    case FeaturePhasesArrayPath => "FeaturePhasesArrayPath"
    case HavePrecips => "HavePrecips"
    case MatchRDF => "MatchRDF"
    case NumFeaturesArrayPath => "NumFeaturesArrayPath"
    case CellFeatureAttributeMatrixPath => "CellFeatureAttributeMatrixPath"
    case NeighborListArrayName => "NeighborListArrayName"
    case NumNeighborsArrayName => "NumNeighborsArrayName"
    case SharedSurfaceAreaListArrayName => "SharedSurfaceAreaListArrayName"
    case StoreBoundaryCells => "StoreBoundaryCells"
    case StoreSurfaceFeatures => "StoreSurfaceFeatures"
    case SurfaceFeaturesArrayName => "SurfaceFeaturesArrayName"
    case AvgQuatsArrayName => "AvgQuatsArrayName"
    case CellEulerAnglesArrayName => "CellEulerAnglesArrayName"
    case FeatureEulerAnglesArrayName => "FeatureEulerAnglesArrayName"
    case MaxIterations => "MaxIterations"
    case NeighborListArrayPath => "NeighborListArrayPath"
    case PhaseTypesArrayPath => "PhaseTypesArrayPath"
    case SharedSurfaceAreaListArrayPath => "SharedSurfaceAreaListArrayPath"
    case SurfaceFeaturesArrayPath => "SurfaceFeaturesArrayPath"
    case VolumesArrayName => "VolumesArrayName"
    case CellEulerAnglesArrayPath => "CellEulerAnglesArrayPath"
    case CellIPFColorsArrayName => "CellIPFColorsArrayName"
    case ReferenceDir => "ReferenceDir"
  }

  /** A DREAM.3D data-array path. An empty `name` denotes the attribute matrix itself. */
  datatype ArrayRef = ArrayRef(container: string, matrix: string, name: string)

  /** A JSON value. Objects map member names to values; member order is not
      modelled. A data-array path parameter is kept as its own kind of value,
      `JPath`; it is written as an object with the members "Attribute Matrix
      Name", "Data Array Name" and "Data Container Name". */
  datatype Json =
    | JBool(b: bool)
    | JInt(i: int)
    | JReal(r: real)
    | JStr(s: string)
    | JArr(items: seq<Json>)
    | JObj(fields: map<Key, Json>)
    | JPath(path: ArrayRef)

  /** The `{"x": .., "y": .., "z": ..}` objects used for dimensions, origin and resolution. */
  function XyzJson(x: Json, y: Json, z: Json): Json {
    JObj(map[X := x, Y := y, Z := z])
  }

  function Member(j: Json, key: Key): Option<Json> {
    if j.JObj? && key in j.fields then Some(j.fields[key]) else None
  }

  /** A pipeline as its builder assembles it: the filter objects in execution
      order and the "PipelineBuilder" metadata object. */
  datatype Pipeline = Pipeline(filters: seq<Json>, metadata: Json)

  /** The members "0" .. "n-1" holding the first n filters. */
  function FilterMembers(filters: seq<Json>): (m: map<Key, Json>)
    ensures m.Keys == StepKeys(|filters|)
    ensures forall i :: 0 <= i < |filters| ==> Step(i) in m && m[Step(i)] == filters[i]
  {
    StepKeysMembers(|filters|);
    if |filters| == 0 then map[]
    else FilterMembers(filters[..|filters| - 1])[Step(|filters| - 1) := filters[|filters| - 1]]
  }

  /** The JSON object the pipeline is written as: filter i under the key "i",
      and the metadata under "PipelineBuilder". */
  function Render(p: Pipeline): Json {
    JObj(FilterMembers(p.filters)[PipelineBuilder := p.metadata])
  }

  /** The rendered object holds each filter under its step key, the metadata
      under "PipelineBuilder", and nothing else. */
  lemma RenderMembers(p: Pipeline, k: Key)
    ensures k.Step? && k.index < |p.filters| ==> Member(Render(p), k) == Some(p.filters[k.index])
    ensures k == PipelineBuilder ==> Member(Render(p), k) == Some(p.metadata)
    ensures Member(Render(p), k).Some? <==> k == PipelineBuilder || (k.Step? && k.index < |p.filters|)
  {
    var m := FilterMembers(p.filters);
    var fields := Render(p).fields;
    assert fields == m[PipelineBuilder := p.metadata];
    StepKeysMembers(|p.filters|);
    if k == PipelineBuilder {
      assert fields[k] == p.metadata;
    } else if k.Step? && k.index < |p.filters| {
      assert k == Step(k.index);
      assert fields[k] == m[k] == p.filters[k.index];
    } else {
      assert k !in m.Keys;
      assert k !in fields;
    }
  }

  /** A place in a pipeline: parameter `key` of filter `step`, or entry
      `index` of that parameter when it is a list. */
  datatype Slot =
    | Param(step: nat, key: Key)
    | Item(step: nat, key: Key, index: nat)

  function Lookup(p: Pipeline, slot: Slot): Option<Json> {
    if slot.step >= |p.filters| then None
    else
      match Member(p.filters[slot.step], slot.key)
      case None => None
      case Some(v) =>
        if slot.Param? then Some(v)
        else if v.JArr? && slot.index < |v.items| then Some(v.items[slot.index])
        else None
  }

  function NameAt(p: Pipeline, slot: Slot): Option<string> {
    match Lookup(p, slot)
    case Some(JStr(s)) => Some(s)
    case _ => None
  }

  function IntAt(p: Pipeline, slot: Slot): Option<int> {
    match Lookup(p, slot)
    case Some(JInt(i)) => Some(i)
    case _ => None
  }

  function RefAt(p: Pipeline, slot: Slot): Option<ArrayRef> {
    match Lookup(p, slot)
    case Some(JPath(r)) => Some(r)
    case _ => None
  }

  /** An integer member of a JSON object. */
  function IntMember(j: Json, key: Key): Option<int> {
    match Member(j, key)
    case Some(JInt(i)) => Some(i)
    case _ => None
  }

  /** Where one component of a data-array path comes from: a name parameter of
      a filter, or the empty name (a path to a whole attribute matrix). */
  datatype NameSource = From(slot: Slot) | Blank

  function SourceName(p: Pipeline, src: NameSource): Option<string> {
    match src
    case Blank => Some("")
    case From(slot) => NameAt(p, slot)
  }

  predicate ProducedBefore(src: NameSource, step: nat) {
    src.Blank? || src.slot.step < step
  }

  /** The data-array path at `consumer` names the container, attribute matrix
      and array that filters running before it produce. */
  predicate Refers(p: Pipeline, consumer: Slot, container: NameSource, matrix: NameSource, name: NameSource) {
    && ProducedBefore(container, consumer.step)
    && ProducedBefore(matrix, consumer.step)
    && ProducedBefore(name, consumer.step)
    && SourceName(p, container).Some?
    && SourceName(p, matrix).Some?
    && SourceName(p, name).Some?
    && RefAt(p, consumer)
       == Some(ArrayRef(SourceName(p, container).value, SourceName(p, matrix).value, SourceName(p, name).value))
  }

  /** The keys of the first `n` filters. */
  function StepKeys(n: nat): set<Key> {
    if n == 0 then {} else StepKeys(n - 1) + {Step(n - 1)}
  }

  lemma {:induction false} StepKeysMembers(n: nat)
    ensures forall k :: k in StepKeys(n) <==> k.Step? && k.index < n
  {
    if n > 0 {
      StepKeysMembers(n - 1);
    }
  }

  lemma {:induction false} StepKeysCount(n: nat)
    ensures |StepKeys(n)| == n
  {
    if n > 0 {
      StepKeysCount(n - 1);
      StepKeysMembers(n - 1);
    }
  }

  /** The keys of a pipeline descriptor are written as distinct texts: the step
      keys as the decimal numbers "0", "1", ..., none of which is "PipelineBuilder". */
  lemma TopLevelTextsDistinct(k1: Key, k2: Key)
    requires k1.Step? || k1 == PipelineBuilder
    requires k2.Step? || k2 == PipelineBuilder
    requires KeyText(k1) == KeyText(k2)
    ensures k1 == k2
  {
    if k1.Step? && k2.Step? {
      NatStringInjective(k1.index, k2.index);
    } else if k1.Step? {
      NatStringRoundTrip(k1.index);
    } else if k2.Step? {
      NatStringRoundTrip(k2.index);
    }
  }

  /** A pipeline descriptor with `n` filters: exactly the keys "0" .. "n-1" and
      "PipelineBuilder", whose "Number_Filters" declares `n`. */
  predicate IsPipelineDescriptor(doc: Json, n: nat) {
    && doc.JObj?
    && doc.fields.Keys == StepKeys(n) + {PipelineBuilder}
    && PipelineBuilder in doc.fields
    && IntMember(doc.fields[PipelineBuilder], Number_Filters) == Some(n)
  }

  /** A pipeline whose metadata declares its own filter count renders as a
      descriptor with that many filters, and in any descriptor the declared
      count is the number of members besides the metadata. */
  lemma {:induction false} RenderIsDescriptor(p: Pipeline)
    requires IntMember(p.metadata, Number_Filters) == Some(|p.filters|)
    ensures IsPipelineDescriptor(Render(p), |p.filters|)
    ensures |Render(p).fields| == |p.filters| + 1
  {
    var doc := Render(p);
    StepKeysMembers(|p.filters|);
    StepKeysCount(|p.filters|);
    assert doc.fields.Keys == StepKeys(|p.filters|) + {PipelineBuilder};
    assert PipelineBuilder !in StepKeys(|p.filters|);
  }
}
