/** The two text files the segmentation pipeline reads beside its descriptor:
    the per-voxel orientation table (`write_segment_grains_orientations_file`)
    and the ensemble description (`write_segment_grains_ensemble_data`). */
module SegmentationInputs {
  import opened Wrappers
  import opened NdArrays
  import opened PipelineJson
  import SegmentationPipeline

  // The orientation table.

  datatype Quaternion = Quaternion(w: real, x: real, y: real, z: real)

  /** One Bunge Euler triple, as the external quaternion converter returns it. */
  datatype EulerTriple = EulerTriple(phi1: real, capitalPhi: real, phi2: real)

  /** One line of the table: the voxel's phase, then its three angles. */
  datatype Row = Row(phase: int, angles: EulerTriple)

  /** The table as `np.savetxt` writes it: the header line, then one row per
      voxel, its values separated by `delimiter`. */
  datatype OrientationTable = OrientationTable(header: string, delimiter: string, rows: seq<Row>)

  const ColumnNames: seq<string> := ["Phase", "Euler1", "Euler2", "Euler3"]
  /** The separator of the header's column names. */
  const ColumnSeparator := ", "
  /** The separator of the values on each data row: `np.savetxt`'s default
      delimiter, since the writer passes none. */
  const RowSeparator := " "
  const IntegerFormat := "%d"
  const AngleFormat := "%20.17f"

  /** Python's `sep.join(parts)`. */
  function Join(sep: string, parts: seq<string>): string {
    if |parts| == 0 then ""
    else if |parts| == 1 then parts[0]
    else parts[0] + sep + Join(sep, parts[1..])
  }

  /** The `fmt` list: the phase column as an integer, every angle column as a float. */
  function ColumnFormats(): (fmts: seq<string>)
    ensures |fmts| == |ColumnNames|
    ensures fmts[0] == IntegerFormat
    ensures forall k :: 1 <= k < |fmts| ==> fmts[k] == AngleFormat
  {
    [IntegerFormat] + Repeat(AngleFormat, |ColumnNames| - 1)
  }

  /** `write_segment_grains_orientations_file` without the file write. `phase`
      holds the voxels' phases flattened, `quaternions` the voxels' orientations
      at each increment (flattened), and `quatToEuler` stands for the external
      converter. Indexing the last increment of an empty history raises
      `IndexError`; stacking columns of different heights raises `ValueError`. */
  function OrientationFile(phase: seq<int>, quaternions: seq<seq<Quaternion>>,
                           quatToEuler: seq<Quaternion> -> seq<EulerTriple>): Result<OrientationTable>
  {
    match NumpyAt(quaternions, -1)
    case None => Err(IndexError)
    case Some(last) =>
      var eulers := quatToEuler(last);
      if |eulers| != |phase| then Err(ValueError)
      else Ok(OrientationTable(
        Join(ColumnSeparator, ColumnNames),
        RowSeparator,
        seq(|phase|, i requires 0 <= i < |phase| => Row(phase[i], eulers[i]))))
  }

  /** The table is written exactly when there is an increment to read and the
      converter gives one triple per voxel. */
  lemma OrientationFileFailures(phase: seq<int>, quaternions: seq<seq<Quaternion>>,
                                quatToEuler: seq<Quaternion> -> seq<EulerTriple>)
    ensures |quaternions| == 0 ==> OrientationFile(phase, quaternions, quatToEuler) == Err(IndexError)
    ensures |quaternions| > 0 ==>
              (OrientationFile(phase, quaternions, quatToEuler).Err?
               <==> |quatToEuler(quaternions[|quaternions| - 1])| != |phase|)
    ensures OrientationFile(phase, quaternions, quatToEuler).Err? ==>
              OrientationFile(phase, quaternions, quatToEuler).error in {IndexError, ValueError}
  {
  }

  /** Voxel i gets row i: its phase first, then the Euler angles of its
      orientation at the last increment. */
  lemma OrientationRows(phase: seq<int>, quaternions: seq<seq<Quaternion>>,
                        quatToEuler: seq<Quaternion> -> seq<EulerTriple>)
    requires OrientationFile(phase, quaternions, quatToEuler).Ok?
    ensures var t := OrientationFile(phase, quaternions, quatToEuler).value;
            && |quaternions| > 0
            && |t.rows| == |phase|
            && t.delimiter == RowSeparator
            && forall i :: 0 <= i < |phase| ==>
                 t.rows[i].phase == phase[i]
                 && t.rows[i].angles == quatToEuler(quaternions[|quaternions| - 1])[i]
  {
  }

  /** The header line is the column names separated by ", ", in order. */
  lemma OrientationHeader(phase: seq<int>, quaternions: seq<seq<Quaternion>>,
                          quatToEuler: seq<Quaternion> -> seq<EulerTriple>)
    requires OrientationFile(phase, quaternions, quatToEuler).Ok?
    ensures OrientationFile(phase, quaternions, quatToEuler).value.header
            == ColumnNames[0] + ColumnSeparator + ColumnNames[1] + ColumnSeparator
               + ColumnNames[2] + ColumnSeparator + ColumnNames[3]
  {
    JoinFour(ColumnSeparator, ColumnNames);
  }

  lemma JoinFour(sep: string, parts: seq<string>)
    requires |parts| == 4
    ensures Join(sep, parts) == parts[0] + sep + parts[1] + sep + parts[2] + sep + parts[3]
  {
    assert Join(sep, parts[3..]) == parts[3];
    assert Join(sep, parts[2..]) == parts[2] + sep + parts[3];
    assert Join(sep, parts[1..]) == parts[1] + sep + (parts[2] + sep + parts[3]);
  }

  // The ensemble description.

  /** The number of spaces a line starts with. */
  function Indent(s: string): (n: nat)
    ensures n <= |s|
    ensures forall k :: 0 <= k < n ==> s[k] == ' '
    ensures n == |s| || s[n] != ' '
  {
    if |s| > 0 && s[0] == ' ' then 1 + Indent(s[1..]) else 0
  }

  /** Whether a line holds anything but spaces; `textwrap.dedent` ignores the
      other lines when it measures the margin and empties them. */
  predicate HasText(s: string) {
    exists k :: 0 <= k < |s| && s[k] != ' '
  }

  predicate AnyText(lines: seq<string>) {
    exists i :: 0 <= i < |lines| && HasText(lines[i])
  }

  /** The common margin: the smallest indent among the lines with text (0 when there are none). */
  function Margin(lines: seq<string>): (m: nat)
    ensures forall i :: 0 <= i < |lines| && HasText(lines[i]) ==> m <= Indent(lines[i])
    ensures AnyText(lines) ==> exists i :: 0 <= i < |lines| && HasText(lines[i]) && Indent(lines[i]) == m
  {
    if |lines| == 0 then 0
    else
      var rest := Margin(lines[1..]);
      assert forall i :: 1 <= i < |lines| ==> lines[i] == lines[1..][i - 1];
      if !HasText(lines[0]) then rest
      else if !AnyText(lines[1..]) then Indent(lines[0])
      else Min(Indent(lines[0]), rest)
  }

  /** `textwrap.dedent` over the lines of a text indented with spaces: lines of
      spaces only become empty, and the common margin is cut from the others. */
  function Dedent(lines: seq<string>): (r: seq<string>)
    ensures |r| == |lines|
  {
    var m := Margin(lines);
    seq(|lines|, i requires 0 <= i < |lines| => if HasText(lines[i]) then lines[i][m..] else "")
  }

  function Spaces(n: nat): string {
    seq(n, _ => ' ')
  }

  /** Every line with text is the margin's spaces followed by its dedented
      form, and every other line becomes empty. */
  lemma DedentRemovesMargin(lines: seq<string>)
    ensures var r := Dedent(lines);
            && (forall i :: 0 <= i < |lines| && HasText(lines[i]) ==> lines[i] == Spaces(Margin(lines)) + r[i])
            && (forall i :: 0 <= i < |lines| && !HasText(lines[i]) ==> r[i] == "")
  {
    forall i | 0 <= i < |lines| && HasText(lines[i])
      ensures lines[i] == Spaces(Margin(lines)) + Dedent(lines)[i]
    {
      StripSpaces(lines[i], Margin(lines));
    }
  }

  lemma StripSpaces(line: string, m: nat)
    requires m <= Indent(line)
    ensures line == Spaces(m) + line[m..]
  {
    assert line[..m] == Spaces(m);
    assert line == line[..m] + line[m..];
  }

  /** No margin is left: when any line has text, some dedented line starts
      with something other than a space. */
  lemma DedentIsFlush(lines: seq<string>)
    requires AnyText(lines)
    ensures exists i :: 0 <= i < |lines| && |Dedent(lines)[i]| > 0 && Dedent(lines)[i][0] != ' '
  {
    var m := Margin(lines);
    var i :| 0 <= i < |lines| && HasText(lines[i]) && Indent(lines[i]) == m;
    var k :| 0 <= k < |lines[i]| && lines[i][k] != ' ';
    assert m < |lines[i]|;
    assert Dedent(lines)[i][0] == lines[i][m];
  }

  /** The lines of the string literal in the source, with its four-space margin. */
  const EnsembleLiteral: seq<string> := [
    "    [EnsembleInfo]",
    "    Number_Phases=2",
    "",
    "    [1]",
    "    CrystalStructure=Cubic_High",
    "    PhaseType=PrimaryPhase",
    "",
    "    [2]",
    "    CrystalStructure=Hexagonal_High",
    "    PhaseType=PrecipitatePhase",
    "    "]

  /** The text `write_segment_grains_ensemble_data` writes. */
  function EnsembleData(): string {
    Join("\n", Dedent(EnsembleLiteral))
  }

  /** The segmentation pipeline's import step (step 2 of
      `SegmentationPipeline.SegmentationDocument`) reads the orientation table as
      written: the same column names in the same order; delimiters that hold
      every character of both the header's separator ", " and the rows'
      separator " ", with runs of delimiters read as one (the `%20.17f`
      columns are padded with spaces); an integer phase column and float
      angle columns; and data from line 2, after the single header line. */
  lemma ImportReadsOrientationColumns(p: Pipeline, g0: int, g1: int, g2: int, lines: int, parent: string)
    requires |p.filters| >= 3 && p.filters[2] == SegmentationPipeline.ReadAsciiFilter(g0, g1, g2, lines, parent)
    ensures forall k :: 0 <= k < |ColumnNames| ==> NameAt(p, Item(2, Wizard_DataHeaders, k)) == Some(ColumnNames[k])
    ensures var d := NameAt(p, Param(2, Wizard_Delimiters));
            && d.Some?
            && (forall c :: c in ColumnSeparator ==> c in d.value)
            && (forall c :: c in RowSeparator ==> c in d.value)
    ensures IntAt(p, Param(2, Wizard_ConsecutiveDelimiters)) == Some(1)
    ensures forall k :: 0 <= k < |ColumnNames| ==>
              NameAt(p, Item(2, Wizard_DataTypes, k)) == Some(if ColumnFormats()[k] == IntegerFormat then "int32_t" else "float")
    ensures IntAt(p, Param(2, Wizard_BeginIndex)) == Some(2)
  {
    SegmentationPipeline.TableHeaders(p, g0, g1, g2, lines, parent);
    SegmentationPipeline.TableFormat(p, g0, g1, g2, lines, parent);
  }

  /** For a volume element of `product(grid_size)` voxels, the line count the
      import step declares is the table's rows plus its header line. */
  lemma ImportCountsOrientationRows(ve: SegmentationPipeline.VolumeElementGeometry, parent: string, p: Pipeline,
                                    phase: seq<int>, quaternions: seq<seq<Quaternion>>,
                                    quatToEuler: seq<Quaternion> -> seq<EulerTriple>)
    requires SegmentationPipeline.SegmentGrainsPipeline(ve, parent) == Ok(p)
    requires OrientationFile(phase, quaternions, quatToEuler).Ok?
    requires |phase| == Product(ve.gridSize)
    ensures IntAt(p, Param(2, Wizard_NumberOfLines)) == Some(|OrientationFile(phase, quaternions, quatToEuler).value.rows| + 1)
  {
    SegmentationPipeline.SegmentationLineCount(ve, parent, p);
    OrientationRows(phase, quaternions, quatToEuler);
  }
}
