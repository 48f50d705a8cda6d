/** The data model of the analyst: the canvas, the report, the history record and the views. */
module Types {
  import opened Wrappers

  /** The nine keys of a Business Model Canvas, in declaration order. */
  datatype Field = KeyPartners | KeyActivities | KeyResources | ValuePropositions | CustomerRelationships | Channels | CustomerSegments | CostStructure | RevenueStreams

  /** The keys in declaration order (the order of `Object.keys` and `Object.values`). */
  const AllFields: seq<Field> := [KeyPartners, KeyActivities, KeyResources, ValuePropositions, CustomerRelationships, Channels, CustomerSegments, CostStructure, RevenueStreams]

  /** Position of a key in declaration order. */
  function FieldIndex(f: Field): (i: nat)
    ensures i < |AllFields| && AllFields[i] == f
  {
    match f
    case KeyPartners => 0
    case KeyActivities => 1
    case KeyResources => 2
    case ValuePropositions => 3
    case CustomerRelationships => 4
    case Channels => 5
    case CustomerSegments => 6
    case CostStructure => 7
    case RevenueStreams => 8
  }

  /** The nine keys are distinct and every key is listed. */
  lemma AllFieldsEnumerate()
    ensures |AllFields| == 9
    ensures forall i, j :: 0 <= i < j < |AllFields| ==> AllFields[i] != AllFields[j]
    ensures forall f: Field :: f in AllFields
  {
    forall i, j | 0 <= i < j < |AllFields| ensures AllFields[i] != AllFields[j] {
      assert FieldIndex(AllFields[i]) == i && FieldIndex(AllFields[j]) == j;
    }
    forall f: Field ensures f in AllFields { assert AllFields[FieldIndex(f)] == f; }
  }

  /** A Business Model Canvas: nine free-text fields. */
  datatype Canvas = Canvas(keyPartners: string, keyActivities: string, keyResources: string, valuePropositions: string, customerRelationships: string, channels: string, customerSegments: string, costStructure: string, revenueStreams: string) {

    /** `data[field]`. */
    function Get(f: Field): string {
      match f
      case KeyPartners => keyPartners
      case KeyActivities => keyActivities
      case KeyResources => keyResources
      case ValuePropositions => valuePropositions
      case CustomerRelationships => customerRelationships
      case Channels => channels
      case CustomerSegments => customerSegments
      case CostStructure => costStructure
      case RevenueStreams => revenueStreams
    }

    /** `{ ...data, [field]: v }`: the canvas with one field replaced. */
    function With(f: Field, v: string): (d: Canvas)
      ensures d.Get(f) == v
      ensures forall g :: g != f ==> d.Get(g) == Get(g)
    {
      match f
      case KeyPartners => this.(keyPartners := v)
      case KeyActivities => this.(keyActivities := v)
      case KeyResources => this.(keyResources := v)
      case ValuePropositions => this.(valuePropositions := v)
      case CustomerRelationships => this.(customerRelationships := v)
      case Channels => this.(channels := v)
      case CustomerSegments => this.(customerSegments := v)
      case CostStructure => this.(costStructure := v)
      case RevenueStreams => this.(revenueStreams := v)
    }
  }

  /** A saved canvas: an id, a creation time, a display preview and a copy of the data. */
  datatype HistoryItem = HistoryItem(id: string, timestamp: string, preview: string, data: Canvas)

  /** The three levels a risk's impact or probability takes. */
  datatype Level = High | Medium | Low

  /** The literal a level is written as. */
  function LevelName(l: Level): (s: string)
    ensures s in LevelNames
  {
    match l
    case High => "High"
    case Medium => "Medium"
    case Low => "Low"
  }

  /** The three level literals, as the schema enumerates them. */
  const LevelNames: seq<string> := ["High", "Medium", "Low"]

  /** Distinct levels are written differently. */
  lemma LevelNameInjective(a: Level, b: Level)
    requires LevelName(a) == LevelName(b)
    ensures a == b
  {
  }

  datatype RiskItem = RiskItem(risk: string, impact: Level, probability: Level, mitigation: string)

  datatype MarketingStrategy = MarketingStrategy(tagline: string, topChannels: seq<string>, growthHack: string)

  datatype RolePlan = RolePlan(role: string, tasks: seq<string>)

  datatype DepartmentPlan = DepartmentPlan(department: string, roles: seq<RolePlan>)

  datatype Swot = Swot(strengths: seq<string>, weaknesses: seq<string>, opportunities: seq<string>, threats: seq<string>)

  datatype SegmentScore = SegmentScore(segment: string, feedback: string, score: int)

  /**
   * The analysis report. The five fields the rendering code guards with `?.`
   * or `|| default` are optional: the parsed reply is cast, not checked, so
   * they may be missing.
   */
  datatype AnalysisResult = AnalysisResult(
    overallScore: int,
    executiveSummary: string,
    swot: Swot,
    suggestions: seq<string>,
    segmentAnalysis: seq<SegmentScore>,
    riskAnalysis: Option<seq<RiskItem>>,
    kpis: Option<seq<string>>,
    marketingStrategy: Option<MarketingStrategy>,
    elevatorPitch: Option<string>,
    departmentalActionPlan: Option<seq<DepartmentPlan>>)

  /** The four views of the application. */
  datatype AppState = Input | Analyzing | Result | ActionPlan

  /** The display metadata of one canvas key (`label` is a reserved word here, hence `labelText`). */
  datatype FieldMeta = FieldMeta(labelText: string, description: string, icon: string)

  datatype LabelEntry = LabelEntry(key: Field, meta: FieldMeta)

  /** The label table, one entry per key, in declaration order. */
  const BmcLabels: seq<LabelEntry> := [
    LabelEntry(KeyPartners, FieldMeta("মূল অংশীদার (Key Partners)", "আপনার সরবরাহকারী বা পার্টনার কারা?", "Handshake")),
    LabelEntry(KeyActivities, FieldMeta("মূল কার্যক্রম (Key Activities)", "ব্যবসা চালাতে কী কী কাজ করতে হবে?", "Activity")),
    LabelEntry(KeyResources, FieldMeta("মূল সম্পদ (Key Resources)", "ব্যবসাটির জন্য কী কী রিসোর্স প্রয়োজন?", "Box")),
    LabelEntry(ValuePropositions, FieldMeta("মূল্য প্রস্তাবনা (Value Propositions)", "গ্রাহক কেন আপনার পণ্য কিনবে?", "Gift")),
    LabelEntry(CustomerRelationships, FieldMeta("গ্রাহক সম্পর্ক (Customer Relationships)", "গ্রাহকদের সাথে সম্পর্ক কেমন হবে?", "Heart")),
    LabelEntry(Channels, FieldMeta("চ্যানেল (Channels)", "পণ্য বা সেবা কীভাবে গ্রাহকের কাছে পৌঁছাবে?", "Truck")),
    LabelEntry(CustomerSegments, FieldMeta("গ্রাহক বিভাগ (Customer Segments)", "আপনার লক্ষ্য গ্রাহক কারা?", "Users")),
    LabelEntry(CostStructure, FieldMeta("ব্যয় কাঠামো (Cost Structure)", "প্রধান খরচগুলো কী কী?", "CreditCard")),
    LabelEntry(RevenueStreams, FieldMeta("আয়ের উৎস (Revenue Streams)", "টাকা কীভাবে আসবে?", "DollarSign"))
  ]

  /** The table has one entry per canvas key, in declaration order. */
  lemma LabelsFollowFields()
    ensures |BmcLabels| == |AllFields|
    ensures forall i :: 0 <= i < |BmcLabels| ==> BmcLabels[i].key == AllFields[i]
  {
  }

  /** `BMC_LABELS[f]`. */
  function LabelOf(f: Field): (m: FieldMeta)
    ensures exists i :: 0 <= i < |BmcLabels| && BmcLabels[i] == LabelEntry(f, m)
  {
    LabelsFollowFields();
    BmcLabels[FieldIndex(f)].meta
  }
}
