// The analysis report page: the chart data, the badge colours, the fields
// the exported input section lists, the defaults for missing report fields,
// which sections are shown or exported, and the export file names.

module AnalysisReportPage {
  import opened Wrappers
  import opened Types
  import ActionPlanPage

  // ---------------------------------------------------------------------------
  // Chart data

  /** One slice of the score donut. */
  datatype Slice = Slice(name: string, value: int)

  /** The score donut: the score and what remains of 100. */
  function ScoreData(r: AnalysisResult): (slices: seq<Slice>)
    ensures |slices| == 2 && slices[0] == Slice("Score", r.overallScore) && slices[1].name == "Remaining"
    ensures slices[0].value + slices[1].value == 100
  {
    [Slice("Score", r.overallScore), Slice("Remaining", 100 - r.overallScore)]
  }

  /** One point of the segment radar chart. */
  datatype RadarPoint = RadarPoint(subject: string, a: int, fullMark: int)

  /** The radar chart: one point per segment, in the same order, on a scale of ten. */
  function RadarData(r: AnalysisResult): (points: seq<RadarPoint>)
    ensures |points| == |r.segmentAnalysis|
    ensures forall i :: 0 <= i < |points| ==>
      points[i].subject == r.segmentAnalysis[i].segment && points[i].a == r.segmentAnalysis[i].score && points[i].fullMark == 10
  {
    seq(|r.segmentAnalysis|, i requires 0 <= i < |r.segmentAnalysis| =>
      RadarPoint(r.segmentAnalysis[i].segment, r.segmentAnalysis[i].score, 10))
  }

  // ---------------------------------------------------------------------------
  // Badges

  /** The badge colours of the report. */
  datatype Badge = Green | Yellow | Orange | Red

  /** The badge of a segment score: green from 7, yellow from 4, red below. */
  function SegmentBadge(score: int): (b: Badge)
    ensures b == Green <==> score >= 7
    ensures b == Yellow <==> 4 <= score < 7
    ensures b == Red <==> score < 4
  {
    if score >= 7 then Green else if score >= 4 then Yellow else Red
  }

  /** How good a segment badge is: red 0, yellow 1, green 2. */
  function SegmentRank(b: Badge): nat {
    match b
    case Red => 0
    case Yellow | Orange => 1
    case Green => 2
  }

  /** A higher score never gets a worse badge. */
  lemma SegmentBadgeMonotone(s: int, t: int)
    requires s <= t
    ensures SegmentRank(SegmentBadge(s)) <= SegmentRank(SegmentBadge(t))
  {
  }

  /** The badge of an impact or probability literal: red for "High", orange for "Medium", green for anything else. */
  function LevelBadge(text: string): (b: Badge)
    ensures b == Red <==> text == "High"
    ensures b == Orange <==> text == "Medium"
    ensures b == Green <==> text != "High" && text != "Medium"
  {
    if text == "High" then Red else if text == "Medium" then Orange else Green
  }

  /** On the three level literals the badge is red, orange and green, so distinct levels get distinct colours. */
  lemma LevelBadgeOfLevel(l: Level, m: Level)
    ensures LevelBadge(LevelName(l)) == match l case High => Red case Medium => Orange case Low => Green
    ensures l != m ==> LevelBadge(LevelName(l)) != LevelBadge(LevelName(m))
  {
  }

  /** The impact and probability badges of one risk row. */
  function RiskBadges(item: RiskItem): (badges: (Badge, Badge))
    ensures badges.0 == Red <==> item.impact == High
    ensures badges.1 == Red <==> item.probability == High
  {
    (LevelBadge(LevelName(item.impact)), LevelBadge(LevelName(item.probability)))
  }

  // ---------------------------------------------------------------------------
  // The exported input section

  /** One entry of the exported input section: a field's label and its value. */
  datatype InputRow = InputRow(key: Field, labelText: string, value: string)

  /** `Object.keys(BMC_LABELS)`: the label table's keys, in table order. */
  function OrderedKeys(): (keys: seq<Field>)
    ensures keys == AllFields
  {
    LabelsFollowFields();
    seq(|BmcLabels|, i requires 0 <= i < |BmcLabels| => BmcLabels[i].key)
  }

  /** Each key sits at the position of its field index. */
  predicate AtOwnIndex(keys: seq<Field>) {
    forall j :: 0 <= j < |keys| ==> FieldIndex(keys[j]) == j
  }

  /** The table order puts each key at its field index. */
  lemma OrderedKeysAtOwnIndex()
    ensures AtOwnIndex(OrderedKeys())
  {
    AllFieldsEnumerate();
  }

  /** The rows for the keys from position `i` on whose values are not empty, in key order, each under its looked-up label. */
  function InputRowsFrom(d: Canvas, keys: seq<Field>, i: nat): seq<InputRow>
    requires i <= |keys|
    decreases |keys| - i
  {
    if i == |keys| then []
    else if d.Get(keys[i]) == "" then InputRowsFrom(d, keys, i + 1)
    else [InputRow(keys[i], LabelOf(keys[i]).labelText, d.Get(keys[i]))] + InputRowsFrom(d, keys, i + 1)
  }

  /** Every row holds a non-empty value of a key from position `i` on, under that key's label. */
  lemma {:induction false} RowsFromValid(d: Canvas, keys: seq<Field>, i: nat)
    requires i <= |keys| && AtOwnIndex(keys)
    ensures forall k :: 0 <= k < |InputRowsFrom(d, keys, i)| ==>
      var row := InputRowsFrom(d, keys, i)[k];
      row.value == d.Get(row.key) != "" && row.labelText == LabelOf(row.key).labelText && FieldIndex(row.key) >= i
    decreases |keys| - i
  {
    if i < |keys| {
      RowsFromValid(d, keys, i + 1);
    }
  }

  /** The rows from position `i` on are in strictly increasing key order. */
  lemma {:induction false} RowsFromOrdered(d: Canvas, keys: seq<Field>, i: nat)
    requires i <= |keys| && AtOwnIndex(keys)
    ensures forall k, m :: 0 <= k < m < |InputRowsFrom(d, keys, i)| ==>
      FieldIndex(InputRowsFrom(d, keys, i)[k].key) < FieldIndex(InputRowsFrom(d, keys, i)[m].key)
    decreases |keys| - i
  {
    if i < |keys| {
      RowsFromOrdered(d, keys, i + 1);
      RowsFromValid(d, keys, i + 1);
    }
  }

  /** Some row of `rows` is for key `f`. */
  predicate HasRow(rows: seq<InputRow>, f: Field) {
    exists k :: 0 <= k < |rows| && rows[k].key == f
  }

  /** Every key from position `i` on with a non-empty value has a row. */
  lemma {:induction false} RowsFromComplete(d: Canvas, keys: seq<Field>, i: nat)
    requires i <= |keys|
    ensures forall j :: i <= j < |keys| && d.Get(keys[j]) != "" ==> HasRow(InputRowsFrom(d, keys, i), keys[j])
    decreases |keys| - i
  {
    if i < |keys| {
      RowsFromComplete(d, keys, i + 1);
      var rest := InputRowsFrom(d, keys, i + 1);
      var rows := InputRowsFrom(d, keys, i);
      forall j | i <= j < |keys| && d.Get(keys[j]) != ""
        ensures HasRow(rows, keys[j])
      {
        if j == i {
          assert rows[0].key == keys[i];
        } else {
          assert HasRow(rest, keys[j]);
          var k :| 0 <= k < |rest| && rest[k].key == keys[j];
          if d.Get(keys[i]) == "" {
            assert rows[k] == rest[k];
          } else {
            assert rows[k + 1] == rest[k];
          }
        }
      }
    }
  }

  /** The exported input section lists exactly the non-empty fields, in label-table order, each under its label. */
  function InputRows(d: Canvas): (rows: seq<InputRow>)
    ensures forall k :: 0 <= k < |rows| ==> rows[k].value == d.Get(rows[k].key) != "" && rows[k].labelText == LabelOf(rows[k].key).labelText
    ensures forall f: Field :: d.Get(f) != "" <==> exists k :: 0 <= k < |rows| && rows[k].key == f
    ensures forall k, m :: 0 <= k < m < |rows| ==> FieldIndex(rows[k].key) < FieldIndex(rows[m].key)
  {
    var keys := OrderedKeys();
    var rows := InputRowsFrom(d, keys, 0);
    OrderedKeysAtOwnIndex();
    RowsFromValid(d, keys, 0);
    RowsFromOrdered(d, keys, 0);
    RowsFromComplete(d, keys, 0);
    assert forall f: Field :: d.Get(f) != "" ==> HasRow(rows, f) by {
      forall f: Field | d.Get(f) != "" ensures HasRow(rows, f) {
        assert keys[FieldIndex(f)] == f;
      }
    }
    rows
  }

  /** A canvas with no value exports an empty input section. */
  lemma EmptyCanvasNoRows(d: Canvas)
    requires forall f: Field :: d.Get(f) == ""
    ensures InputRows(d) == []
  {
  }

  // ---------------------------------------------------------------------------
  // Defaults for missing report fields

  /** `v || fallback` on an optional string: the value when present and not empty, else the fallback. */
  function OrText(v: Option<string>, fallback: string): (s: string)
    ensures v.Some? && v.value != "" ==> s == v.value
    ensures v.None? || v.value == "" ==> s == fallback
  {
    if v.Some? && v.value != "" then v.value else fallback
  }

  /** The elevator pitch as the export writes it. */
  function PitchText(r: AnalysisResult): string {
    OrText(r.elevatorPitch, "N/A")
  }

  /** The tagline as the export writes it. */
  function TaglineText(r: AnalysisResult): string {
    OrText(if r.marketingStrategy.Some? then Some(r.marketingStrategy.value.tagline) else None, "N/A")
  }

  /** The growth hack as the page and the export write it (both use the same `|| 'N/A'` expression): never an empty paragraph. */
  function GrowthHackText(r: AnalysisResult): (s: string)
    ensures r.marketingStrategy.Some? && r.marketingStrategy.value.growthHack != "" ==> s == r.marketingStrategy.value.growthHack
    ensures r.marketingStrategy.None? || r.marketingStrategy.value.growthHack == "" ==> s == "N/A"
    ensures s != ""
  {
    OrText(if r.marketingStrategy.Some? then Some(r.marketingStrategy.value.growthHack) else None, "N/A")
  }

  /** The risk rows of the export: the risks, or none when they are missing. */
  function Risks(r: AnalysisResult): (rows: seq<RiskItem>)
    ensures r.riskAnalysis.Some? ==> rows == r.riskAnalysis.value
    ensures r.riskAnalysis.None? ==> rows == []
  {
    r.riskAnalysis.GetOr([])
  }

  /** The KPI list: the KPIs, or none when they are missing. */
  function Kpis(r: AnalysisResult): (items: seq<string>)
    ensures r.kpis.Some? ==> items == r.kpis.value
    ensures r.kpis.None? ==> items == []
  {
    r.kpis.GetOr([])
  }

  /** The channel chips: the strategy's channels, or none when the strategy is missing. */
  function TopChannels(r: AnalysisResult): (channels: seq<string>)
    ensures r.marketingStrategy.Some? ==> channels == r.marketingStrategy.value.topChannels
    ensures r.marketingStrategy.None? ==> channels == []
  {
    if r.marketingStrategy.Some? then r.marketingStrategy.value.topChannels else []
  }

  // ---------------------------------------------------------------------------
  // Section visibility

  /** The on-screen elevator-pitch box appears only for a present, non-empty pitch. */
  predicate ShowsPitchBox(r: AnalysisResult) {
    r.elevatorPitch.Some? && r.elevatorPitch.value != ""
  }

  /** The on-screen tagline box appears only for a present, non-empty tagline. */
  predicate ShowsTaglineBox(r: AnalysisResult) {
    r.marketingStrategy.Some? && r.marketingStrategy.value.tagline != ""
  }

  /** The on-screen risk table appears only when risks are present and there is at least one. */
  predicate ShowsRiskTable(r: AnalysisResult) {
    r.riskAnalysis.Some? && |r.riskAnalysis.value| > 0
  }

  /** Where the box is hidden the export writes "N/A", and where it is shown the export writes the pitch itself. */
  lemma PitchBoxMatchesExport(r: AnalysisResult)
    ensures ShowsPitchBox(r) ==> PitchText(r) == r.elevatorPitch.value
    ensures !ShowsPitchBox(r) ==> PitchText(r) == "N/A"
  {
  }

  /** The same holds for the tagline box and the exported tagline. */
  lemma TaglineBoxMatchesExport(r: AnalysisResult)
    ensures ShowsTaglineBox(r) ==> TaglineText(r) == r.marketingStrategy.value.tagline
    ensures !ShowsTaglineBox(r) ==> TaglineText(r) == "N/A"
  {
  }

  /** The risk table is shown exactly when the export has a risk row. */
  lemma RiskTableIffRows(r: AnalysisResult)
    ensures ShowsRiskTable(r) <==> |Risks(r)| > 0
  {
  }

  // ---------------------------------------------------------------------------
  // The Word export

  /** The sections of an exported document. */
  datatype Section = InputSection | Overview | ElevatorPitch | SegmentTable | SwotLists | RiskMatrix | Marketing
    | Suggestions | ActionPlanSection

  /** The sections of the Word export, in order: the input section when asked for, the report, and the action plan when present. */
  function WordSections(r: AnalysisResult, includeInput: bool): (s: seq<Section>)
    ensures InputSection in s <==> includeInput
    ensures includeInput ==> s[0] == InputSection
    ensures ActionPlanSection in s <==> r.departmentalActionPlan.Some?
    ensures forall k :: 0 <= k < |s| && s[k] == ActionPlanSection ==> k == |s| - 1
  {
    (if includeInput then [InputSection] else [])
    + [Overview, ElevatorPitch, SegmentTable, SwotLists, RiskMatrix, Marketing, Suggestions]
    + (if r.departmentalActionPlan.Some? then [ActionPlanSection] else [])
  }

  /** A present but empty plan is exported as an action-plan section while the action-plan page shows its empty-state message. */
  lemma EmptyPlanExportedButNotShown(r: AnalysisResult)
    requires r.departmentalActionPlan == Some([])
    ensures ActionPlanSection in WordSections(r, false)
    ensures ActionPlanPage.Page(r).NoPlanMessage?
  {
  }

  /** The export formats. */
  datatype Format = Word | Pdf

  /** The downloaded file's name. */
  function FileName(format: Format, includeInput: bool): (name: string)
    ensures |name| > 4 && name[|name| - 4..] == (if format == Word then ".doc" else ".pdf")
  {
    match format
    case Word => if includeInput then "BMC_Full_Report.doc" else "BMC_Report.doc"
    case Pdf => if includeInput then "BMC_Full_Report.pdf" else "BMC_Analysis_Report.pdf"
  }

  /** The file name depends on the input flag, so the full and the plain download of a format never share a name. */
  lemma FileNameSeparatesExports(format: Format)
    ensures FileName(format, true) != FileName(format, false)
  {
  }
}
