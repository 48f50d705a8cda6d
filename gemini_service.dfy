/**
 * The analysis request protocol: the response schema, the prompt, the
 * markdown-fence extraction and the two-attempt escalation policy.
 */
module GeminiService {
  import opened Wrappers
  import opened Text
  import opened Types

  // ---------------------------------------------------------------------------
  // The response schema sent with the structured request

  /** The subset of the service's schema language the request uses. */
  datatype Schema =
    | ObjectOf(properties: seq<Property>, required: seq<string>)
    | ArrayOf(items: Schema)
    | StringOf(enumValues: seq<string>)  // an empty list means any string
    | NumberOf

  datatype Property = Property(name: string, schema: Schema)

  const StringList: Schema := ArrayOf(StringOf([]))

  const SwotSchema: Schema := ObjectOf(
    [Property("strengths", StringList), Property("weaknesses", StringList),
     Property("opportunities", StringList), Property("threats", StringList)],
    ["strengths", "weaknesses", "opportunities", "threats"])

  const SegmentSchema: Schema := ObjectOf(
    [Property("segment", StringOf([])), Property("feedback", StringOf([])), Property("score", NumberOf)],
    ["segment", "feedback", "score"])

  const RiskSchema: Schema := ObjectOf(
    [Property("risk", StringOf([])),
     Property("impact", StringOf(["High", "Medium", "Low"])),
     Property("probability", StringOf(["High", "Medium", "Low"])),
     Property("mitigation", StringOf([]))],
    ["risk", "impact", "probability", "mitigation"])

  const MarketingSchema: Schema := ObjectOf(
    [Property("tagline", StringOf([])), Property("topChannels", StringList), Property("growthHack", StringOf([]))],
    ["tagline", "topChannels", "growthHack"])

  const RoleSchema: Schema := ObjectOf(
    [Property("role", StringOf([])), Property("tasks", StringList)],
    ["role", "tasks"])

  const DepartmentSchema: Schema := ObjectOf(
    [Property("department", StringOf([])), Property("roles", ArrayOf(RoleSchema))],
    ["department", "roles"])

  /** The ten top-level fields of a report, in schema order. */
  const ResultFieldNames: seq<string> :=
    ["overallScore", "executiveSummary", "swot", "suggestions", "segmentAnalysis",
     "riskAnalysis", "kpis", "marketingStrategy", "elevatorPitch", "departmentalActionPlan"]

  const ResultSchema: Schema := ObjectOf(
    [Property("overallScore", NumberOf),
     Property("executiveSummary", StringOf([])),
     Property("swot", SwotSchema),
     Property("suggestions", StringList),
     Property("segmentAnalysis", ArrayOf(SegmentSchema)),
     Property("riskAnalysis", ArrayOf(RiskSchema)),
     Property("kpis", StringList),
     Property("marketingStrategy", MarketingSchema),
     Property("elevatorPitch", StringOf([])),
     Property("departmentalActionPlan", ArrayOf(DepartmentSchema))],
    ["overallScore", "executiveSummary", "swot", "suggestions", "segmentAnalysis",
     "riskAnalysis", "kpis", "marketingStrategy", "elevatorPitch", "departmentalActionPlan"])

  /** The names of a property list, in order. */
  function Names(ps: seq<Property>): (r: seq<string>)
    ensures |r| == |ps| && forall i :: 0 <= i < |ps| ==> r[i] == ps[i].name
  {
    seq(|ps|, i requires 0 <= i < |ps| => ps[i].name)
  }

  /** An object schema lists each of its properties, in order, as required. */
  predicate RequiresAll(s: Schema) {
    s.ObjectOf? && Names(s.properties) == s.required
  }

  /** The structured request requires all ten report fields, in schema order. */
  lemma SchemaRequiresTopLevel()
    ensures RequiresAll(ResultSchema) && ResultSchema.required == ResultFieldNames
  {
    var ps := ResultSchema.properties;
    assert Names(ps) == [ps[0].name, ps[1].name, ps[2].name, ps[3].name, ps[4].name,
                         ps[5].name, ps[6].name, ps[7].name, ps[8].name, ps[9].name];
  }

  /** Every nested object of the schema requires all of its properties too. */
  lemma SchemaRequiresNested()
    ensures RequiresAll(SwotSchema) && RequiresAll(SegmentSchema) && RequiresAll(RiskSchema)
    ensures RequiresAll(MarketingSchema) && RequiresAll(RoleSchema) && RequiresAll(DepartmentSchema)
  {
    var sw, sg, rk := SwotSchema.properties, SegmentSchema.properties, RiskSchema.properties;
    assert Names(sw) == [sw[0].name, sw[1].name, sw[2].name, sw[3].name];
    assert Names(sg) == [sg[0].name, sg[1].name, sg[2].name];
    assert Names(rk) == [rk[0].name, rk[1].name, rk[2].name, rk[3].name];
    var mk, rl, dp := MarketingSchema.properties, RoleSchema.properties, DepartmentSchema.properties;
    assert Names(mk) == [mk[0].name, mk[1].name, mk[2].name];
    assert Names(rl) == [rl[0].name, rl[1].name];
    assert Names(dp) == [dp[0].name, dp[1].name];
  }

  /** The nested schemas sit under the report fields they describe. */
  lemma SchemaNesting()
    ensures ResultSchema.properties[2] == Property("swot", SwotSchema)
    ensures ResultSchema.properties[4] == Property("segmentAnalysis", ArrayOf(SegmentSchema))
    ensures ResultSchema.properties[5] == Property("riskAnalysis", ArrayOf(RiskSchema))
    ensures ResultSchema.properties[7] == Property("marketingStrategy", MarketingSchema)
    ensures ResultSchema.properties[9] == Property("departmentalActionPlan", ArrayOf(DepartmentSchema))
    ensures DepartmentSchema.properties[1] == Property("roles", ArrayOf(RoleSchema))
  {
  }

  /** The schema restricts a risk's impact and probability to the three level literals. */
  lemma SchemaRestrictsLevels()
    ensures RiskSchema.properties[1] == Property("impact", StringOf(LevelNames))
    ensures RiskSchema.properties[2] == Property("probability", StringOf(LevelNames))
  {
  }

  // ---------------------------------------------------------------------------
  // The prompt

  /** The model both attempts ask for. */
  const Model: string := "gemini-2.5-flash"

  /** The fixed text before the canvas data. */
  const PromptHead: string :=
    "\n" +
    "    Analyze the following Business Model Canvas (BMC) data provided in Bengali/English. \n" +
    "    Act as a world-class business consultant.\n" +
    "    Provide the output strictly in Bengali language (Bangla).\n" +
    "    \n" +
    "    Data:\n"

  const PromptTail: string :=
    "\n" +
    "    **Instruction for Action Plan:**\n" +
    "    Create a detailed Action Plan assigning specific tasks to the following roles based on the business analysis:\n" +
    "\n" +
    "    1. **Management (ব্যবস্থাপনা):**\n" +
    "       - **Managing Director/CEO:** Strategy, Vision, Budget monitoring.\n" +
    "    \n" +
    "    2. **Marketing & Sales (মার্কেটিং ও বিক্রয়):**\n" +
    "       - **Marketing Manager:** Branding, Digital Campaigns (SEO/SEM), Offline marketing.\n" +
    "       - **Sales Team Lead:** Customer communication, Closing sales, Corporate clients.\n" +
    "    \n" +
    "    3. **Operations (অপারেশন):**\n" +
    "       - **Operations Manager:** Logistics, Supplier contracts.\n" +
    "       - **Tour Coordinator / Agent:** Booking, Itinerary, Visa processing.\n" +
    "       - **Customer Service Officer:** Inquiries, Problem solving.\n" +
    "    \n" +
    "    4. **Finance (অর্থ ও হিসাব):**\n" +
    "       - **Finance Manager:** Budgeting, Accounts, Profitability check.\n" +
    "\n" +
    "    5. **Technology (প্রযুক্তি):**\n" +
    "       - **IT Administrator:** Website, CRM maintenance.\n" +
    "\n" +
    "    Provide a JSON response with the following structure:\n" +
    "    {\n" +
    "      \"overallScore\": number (0-100),\n" +
    "      \"executiveSummary\": \"string\",\n" +
    "      \"swot\": {\n" +
    "        \"strengths\": [\"string\"],\n" +
    "        \"weaknesses\": [\"string\"],\n" +
    "        \"opportunities\": [\"string\"],\n" +
    "        \"threats\": [\"string\"]\n" +
    "      },\n" +
    "      \"suggestions\": [\"string\"],\n" +
    "      \"segmentAnalysis\": [\n" +
    "        { \"segment\": \"string\", \"feedback\": \"string\", \"score\": number }\n" +
    "      ],\n" +
    "      \"riskAnalysis\": [\n" +
    "        { \"risk\": \"string\", \"impact\": \"High/Medium/Low\", \"probability\": \"High/Medium/Low\", \"mitigation\": \"string (How to solve)\" }\n" +
    "      ],\n" +
    "      \"kpis\": [\"string (Key metrics to track success, e.g. CAC, LTV)\"],\n" +
    "      \"marketingStrategy\": {\n" +
    "        \"tagline\": \"string (A catchy slogan in Bangla)\",\n" +
    "        \"topChannels\": [\"string\"],\n" +
    "        \"growthHack\": \"string (One specific creative idea to grow fast)\"\n" +
    "      },\n" +
    "      \"elevatorPitch\": \"string (A 30-second persuasive pitch for investors in Bangla)\",\n" +
    "      \"departmentalActionPlan\": [\n" +
    "        {\n" +
    "           \"department\": \"string (e.g. Marketing & Sales)\",\n" +
    "           \"roles\": [\n" +
    "              {\n" +
    "                \"role\": \"string (e.g. Marketing Manager)\",\n" +
    "                \"tasks\": [\"string (Specific actionable todo item)\"]\n" +
    "              }\n" +
    "           ]\n" +
    "        }\n" +
    "      ]\n" +
    "    }\n" +
    "  "

  /** The caption the prompt gives each canvas field. */
  function Caption(f: Field): string {
    match f
    case KeyPartners => "Key Partners"
    case KeyActivities => "Key Activities"
    case KeyResources => "Key Resources"
    case ValuePropositions => "Value Propositions"
    case CustomerRelationships => "Customer Relationships"
    case Channels => "Channels"
    case CustomerSegments => "Customer Segments"
    case CostStructure => "Cost Structure"
    case RevenueStreams => "Revenue Streams"
  }

  /** The text before a field's value on its data line. */
  function LineLead(f: Field): string {
    "    - " + Caption(f) + ": "
  }

  /** The data line of one field. */
  function DataLine(d: Canvas, f: Field): string {
    LineLead(f) + d.Get(f) + "\n"
  }

  /** The data lines of the fields `fs`, in order. */
  function DataLines(d: Canvas, fs: seq<Field>): string
  {
    if fs == [] then "" else DataLine(d, fs[0]) + DataLines(d, fs[1..])
  }

  /** The prompt of both attempts: the fixed text with the nine values interpolated. */
  function Prompt(d: Canvas): string {
    PromptHead + DataLines(d, AllFields) + PromptTail
  }

  /** The instruction the fallback attempt appends to the prompt. */
  const FallbackSuffix: string := "\n\nRETURN ONLY VALID JSON. Do not include markdown formatting like ```json"

  /** One step of the append property: it holds for `fs` once it holds for the tail of `fs`. */
  lemma DataLinesAppendStep(d: Canvas, fs: seq<Field>, gs: seq<Field>)
    requires fs != []
    requires DataLines(d, fs[1..] + gs) == DataLines(d, fs[1..]) + DataLines(d, gs)
    ensures DataLines(d, fs + gs) == DataLines(d, fs) + DataLines(d, gs)
  {
    var line, rest, tail := DataLine(d, fs[0]), DataLines(d, fs[1..]), DataLines(d, gs);
    TailOfAppend(fs, gs);
    assert DataLines(d, fs + gs) == line + (rest + tail);
    Associate(line, rest, tail);
  }

  /** The data lines of `fs + gs` are those of `fs` followed by those of `gs`. */
  lemma {:induction false} DataLinesAppend(d: Canvas, fs: seq<Field>, gs: seq<Field>)
    ensures DataLines(d, fs + gs) == DataLines(d, fs) + DataLines(d, gs)
  {
    if fs == [] {
      assert fs + gs == gs;
    } else {
      DataLinesAppend(d, fs[1..], gs);
      DataLinesAppendStep(d, fs, gs);
    }
  }

  /** Dropping the head of a non-empty `a` from `a + b`. */
  lemma TailOfAppend(a: seq<Field>, b: seq<Field>)
    requires a != []
    ensures (a + b)[0] == a[0] && (a + b)[1..] == a[1..] + b
  {
  }

  /** Concatenation regroups. */
  lemma Associate(x: string, y: string, z: string)
    ensures x + (y + z) == (x + y) + z
  {
  }

  /** A value framed by `lead` and a newline inside `p` from `at` on sits right after `lead`. */
  lemma FramedValue(p: string, at: nat, lead: string, v: string, more: string)
    requires at <= |p| && p[at..] == lead + v + "\n" + more
    ensures at + |lead| + |v| < |p| && p[at + |lead|..at + |lead| + |v|] == v
  {
    var m := p[at..];
    assert |m| == |lead| + |v| + 1 + |more|;
    forall k | 0 <= k < |v| ensures p[at + |lead| + k] == v[k] {
      assert p[at + |lead| + k] == m[|lead| + k];
    }
  }

  /** The data lines of `fs` split around the line of `fs[i]`. */
  lemma DataLinesAround(d: Canvas, fs: seq<Field>, i: nat)
    requires i < |fs|
    ensures DataLines(d, fs) == DataLines(d, fs[..i]) + (DataLine(d, fs[i]) + DataLines(d, fs[i + 1..]))
    ensures DataLines(d, fs[..i + 1]) == DataLines(d, fs[..i]) + DataLine(d, fs[i])
  {
    var f := fs[i];
    assert fs == fs[..i] + ([f] + fs[i + 1..]);
    DataLinesAppend(d, fs[..i], [f] + fs[i + 1..]);
    assert fs[..i + 1] == fs[..i] + [f];
    DataLinesAppend(d, fs[..i], [f]);
    assert ([f] + fs[i + 1..])[1..] == fs[i + 1..];
    assert [f][1..] == [];
  }

  /** Concatenation regrouped around a middle piece. */
  lemma Regroup(h: string, a: string, l: string, r: string, t: string)
    ensures h + (a + (l + r)) + t == (h + a) + (l + (r + t))
  {
  }

  /**
   * Between any fixed `head` and `tail` (the prompt is `PromptHead + DataLines(d, AllFields) + PromptTail`),
   * the data lines hold the value of `fs[i]` verbatim right after its caption, and the values follow the order of `fs`.
   */
  lemma PromptEmbedsField(d: Canvas, head: string, fs: seq<Field>, tail: string, i: nat)
    requires i < |fs|
    ensures var p, at, v := head + DataLines(d, fs) + tail, |head| + |DataLines(d, fs[..i])| + |LineLead(fs[i])|, d.Get(fs[i]);
      at + |v| < |p| && p[at..at + |v|] == v
    ensures i + 1 < |fs| ==>
      |head| + |DataLines(d, fs[..i])| + |LineLead(fs[i])| + |d.Get(fs[i])| < |head| + |DataLines(d, fs[..i + 1])| + |LineLead(fs[i + 1])|
  {
    var f := fs[i];
    var before, after := DataLines(d, fs[..i]), DataLines(d, fs[i + 1..]);
    DataLinesAround(d, fs, i);
    Regroup(head, before, DataLine(d, f), after, tail);
    var pre := head + before;
    var p := pre + (DataLine(d, f) + (after + tail));
    assert p[|pre|..] == DataLine(d, f) + (after + tail);
    FramedValue(p, |pre|, LineLead(f), d.Get(f), after + tail);
  }

  // ---------------------------------------------------------------------------
  // Fence extraction: first the shortest block opened by three backticks, "json" and a newline and
  // closed by a newline and three backticks; failing that, the shortest block between two runs of
  // three backticks; failing both, the whole text.

  const JsonOpen: string := "```json\n"
  const JsonClose: string := "\n```"
  const Backticks: string := "```"

  /** A regex match: the opening delimiter at `open`, the closing one at `close`. */
  datatype FenceMatch = FenceMatch(open: nat, close: nat)

  /** A match of `open` (lazy any) `close` can start at `p`: the opener is there and a closer follows it. */
  ghost predicate OpensAt(s: string, open: string, close: string, p: int) {
    OccursAt(s, open, p) && exists k :: p + |open| <= k && OccursAt(s, close, k)
  }

  /** The lazy match starting at `p` ends with the closer at `k`: the nearest closer after the opener. */
  ghost predicate LazyMatchAt(s: string, open: string, close: string, p: int, k: int) {
    OccursAt(s, open, p) && p + |open| <= k && OccursAt(s, close, k)
    && forall j :: p + |open| <= j < k ==> !OccursAt(s, close, j)
  }

  /** The leftmost match at or after `from`, as a regex engine finds it. */
  function FirstMatch(s: string, open: string, close: string, from: nat): (r: Option<FenceMatch>)
    requires |open| > 0
    ensures r.Some? ==> from <= r.value.open && LazyMatchAt(s, open, close, r.value.open, r.value.close)
    ensures r.Some? ==> forall q :: from <= q < r.value.open ==> !OpensAt(s, open, close, q)
    ensures r.None? ==> forall q :: from <= q ==> !OpensAt(s, open, close, q)
    decreases |s| - from
  {
    match FindFrom(s, open, from)
    case None => None
    case Some(p) =>
      match FindFrom(s, close, p + |open|)
      case Some(k) => Some(FenceMatch(p, k))
      case None =>
        assert !OpensAt(s, open, close, p);
        FirstMatch(s, open, close, p + 1)
  }

  /** A lazy match starting at `p` means a match can start there. */
  lemma LazyMatchOpens(s: string, open: string, close: string, p: int, k: int)
    requires LazyMatchAt(s, open, close, p, k)
    ensures OpensAt(s, open, close, p)
  {
  }

  /** Where no match can start, the search finds none. */
  lemma FirstMatchNone(s: string, open: string, close: string)
    requires |open| > 0
    requires forall q :: 0 <= q ==> !OpensAt(s, open, close, q)
    ensures FirstMatch(s, open, close, 0).None?
  {
    var r := FirstMatch(s, open, close, 0);
    if r.Some? {
      LazyMatchOpens(s, open, close, r.value.open, r.value.close);
      assert false;
    }
  }

  /** Two lazy matches from the same opener end at the same closer. */
  lemma LazyMatchUnique(s: string, open: string, close: string, p: int, k: int, k': int)
    requires LazyMatchAt(s, open, close, p, k) && LazyMatchAt(s, open, close, p, k')
    ensures k == k'
  {
  }

  /** The leftmost lazy match is the one the search returns. */
  lemma FirstMatchIs(s: string, open: string, close: string, p: nat, k: nat)
    requires |open| > 0
    requires LazyMatchAt(s, open, close, p, k)
    requires forall q :: 0 <= q < p ==> !OpensAt(s, open, close, q)
    ensures FirstMatch(s, open, close, 0) == Some(FenceMatch(p, k))
  {
    assert OpensAt(s, open, close, p);
    var m := FirstMatch(s, open, close, 0).value;
    assert OpensAt(s, open, close, m.open);
    assert m.open == p;
  }

  /** The string the fallback parses: the first fenced block's content, or the whole text. */
  function ExtractJson(text: string): (r: string)
    ensures exists i, j :: 0 <= i <= j <= |text| && text[i..j] == r
  {
    match FirstMatch(text, JsonOpen, JsonClose, 0)
    case Some(m) => text[m.open + |JsonOpen|..m.close]
    case None =>
      match FirstMatch(text, Backticks, Backticks, 0)
      case Some(m) => text[m.open + |Backticks|..m.close]
      case None => assert text[0..|text|] == text; text
  }

  /** A "```json\n" … "\n```" block wins: its content is extracted. */
  lemma ExtractTagged(text: string, p: nat, k: nat)
    requires LazyMatchAt(text, JsonOpen, JsonClose, p, k)
    requires forall q :: 0 <= q < p ==> !OpensAt(text, JsonOpen, JsonClose, q)
    ensures ExtractJson(text) == text[p + |JsonOpen|..k]
  {
    FirstMatchIs(text, JsonOpen, JsonClose, p, k);
  }

  /** Without a tagged block, the content between the first two "```" is extracted. */
  lemma ExtractUntagged(text: string, p: nat, k: nat)
    requires forall q :: 0 <= q ==> !OpensAt(text, JsonOpen, JsonClose, q)
    requires LazyMatchAt(text, Backticks, Backticks, p, k)
    requires forall q :: 0 <= q < p ==> !OpensAt(text, Backticks, Backticks, q)
    ensures ExtractJson(text) == text[p + |Backticks|..k]
  {
    FirstMatchNone(text, JsonOpen, JsonClose);
    FirstMatchIs(text, Backticks, Backticks, p, k);
  }

  /** Without any fenced block, the whole text is parsed unchanged. */
  lemma ExtractUnfenced(text: string)
    requires forall q :: 0 <= q ==> !OpensAt(text, JsonOpen, JsonClose, q)
    requires forall q :: 0 <= q ==> !OpensAt(text, Backticks, Backticks, q)
    ensures ExtractJson(text) == text
  {
    FirstMatchNone(text, JsonOpen, JsonClose);
    FirstMatchNone(text, Backticks, Backticks);
  }

  /** `s` has no backtick. */
  predicate NoBacktick(s: string) {
    forall i :: 0 <= i < |s| ==> s[i] != '`'
  }

  /** A tagged fence around a body without backticks yields the body. */
  lemma ExtractTaggedFence(body: string)
    requires NoBacktick(body)
    ensures ExtractJson(JsonOpen + body + JsonClose) == body
  {
    var text := JsonOpen + body + JsonClose;
    var k := |JsonOpen| + |body|;
    assert OccursAt(text, JsonOpen, 0) by { assert text[0..|JsonOpen|] == JsonOpen; }
    assert OccursAt(text, JsonClose, k) by { assert text[k..k + |JsonClose|] == JsonClose; }
    forall j | |JsonOpen| <= j < k ensures !OccursAt(text, JsonClose, j) {
      assert text[j + 1] != JsonClose[1] by {
        if j + 1 < k { assert text[j + 1] == body[j + 1 - |JsonOpen|]; }
      }
    }
    ExtractTagged(text, 0, k);
    assert text[|JsonOpen|..k] == body;
  }

  /** In an untagged fence around a body without backticks, the tagged opener can only be the start of a "json\n" body. */
  lemma BareFenceTag(body: string, q: int)
    requires NoBacktick(body)
    ensures OccursAt(Backticks + body + Backticks, JsonOpen, q) ==> q == 0 && |body| >= 5 && body[..5] == "json\n"
  {
    var text := Backticks + body + Backticks;
    var n := |body|;
    if OccursAt(text, JsonOpen, q) {
      var w := text[q..q + |JsonOpen|];
      assert text[q + 2] == w[2] == '`' && text[q + 3] == w[3] == 'j';
      assert forall i :: 3 <= i < n + 3 ==> text[i] == body[i - 3];
      assert forall i :: n + 3 <= i < n + 6 ==> text[i] == '`';
      assert q == 0;
      assert w == JsonOpen && text[7] == w[7] == '\n';
      assert n >= 5;
      assert body[..5] == text[3..8] == w[3..8];
    }
  }

  /** An untagged fence around a body without backticks that does not start with "json\n" yields the body. */
  lemma ExtractBareFence(body: string)
    requires NoBacktick(body)
    requires !(|body| >= 5 && body[..5] == "json\n")
    ensures ExtractJson(Backticks + body + Backticks) == body
  {
    var text := Backticks + body + Backticks;
    var n := |body|;
    forall q | 0 <= q ensures !OpensAt(text, JsonOpen, JsonClose, q) {
      BareFenceTag(body, q);
    }
    assert OccursAt(text, Backticks, 0) by { assert text[0..3] == Backticks; }
    assert OccursAt(text, Backticks, n + 3) by { assert text[n + 3..n + 6] == Backticks; }
    forall j | 3 <= j < n + 3 ensures !OccursAt(text, Backticks, j) {
      assert text[j] == body[j - 3];
      if j + 3 <= |text| { assert text[j..j + 3][0] == text[j]; }
    }
    ExtractUntagged(text, 0, n + 3);
    assert text[3..n + 3] == body;
  }

  /** A "json" tag without the newline framing stays in the extracted text. */
  lemma ExtractKeepsLooseTag(rest: string)
    requires NoBacktick(rest)
    requires rest == [] || rest[0] != '\n'
    ensures ExtractJson(Backticks + "json" + rest + Backticks) == "json" + rest
  {
    var body := "json" + rest;
    assert Backticks + "json" + rest + Backticks == Backticks + body + Backticks;
    if |body| >= 5 { assert body[4] == rest[0]; }
    ExtractBareFence(body);
  }

  // ---------------------------------------------------------------------------
  // The two-attempt policy

  /** The generation config of the structured attempt. */
  datatype Config = Config(responseMimeType: string, responseSchema: Schema)

  /** One call to the analysis service. */
  datatype Request = Request(model: string, prompt: string, config: Option<Config>)

  /** What a call gives back: it throws, or it answers with `response.text`, which may be absent. */
  datatype Reply = Threw | Answered(text: Option<string>)

  /** Why the fallback attempt failed; the first attempt's failure is only logged. */
  datatype Failure = FallbackCallFailed | FallbackParseFailed

  function StructuredRequest(d: Canvas): Request {
    Request(Model, Prompt(d), Some(Config("application/json", ResultSchema)))
  }

  function FallbackRequest(d: Canvas): Request {
    Request(Model, Prompt(d) + FallbackSuffix, None)
  }

  /** The structured attempt's report: non-empty text that parses; otherwise None. */
  function StructuredResult(reply: Reply, parse: string -> Option<AnalysisResult>): (r: Option<AnalysisResult>)
    ensures r.Some? <==> reply.Answered? && reply.text.Some? && reply.text.value != "" && parse(reply.text.value).Some?
    ensures r.Some? ==> r == parse(reply.text.value)
  {
    match reply
    case Answered(Some(t)) => if t != "" then parse(t) else None
    case _ => None
  }

  /** The fallback attempt's outcome: absent text counts as "", the fence is stripped, then parsed. */
  function FallbackOutcome(reply: Reply, parse: string -> Option<AnalysisResult>): (r: Outcome<AnalysisResult, Failure>)
    ensures reply.Threw? <==> r == Err(FallbackCallFailed)
    ensures reply.Answered? ==> var t := ExtractJson(reply.text.GetOr(""));
      (parse(t).Some? ==> r == Ok(parse(t).value)) && (parse(t).None? ==> r == Err(FallbackParseFailed))
  {
    match reply
    case Threw => Err(FallbackCallFailed)
    case Answered(text) =>
      match parse(ExtractJson(text.GetOr("")))
      case Some(v) => Ok(v)
      case None => Err(FallbackParseFailed)
  }

  /**
   * analyzeBMC against a service oracle and a JSON parser: the outcome and the
   * calls made, in order.
   */
  method AnalyzeBmc(d: Canvas, service: Request -> Reply, parse: string -> Option<AnalysisResult>)
    returns (r: Outcome<AnalysisResult, Failure>, calls: seq<Request>)
    ensures 1 <= |calls| <= 2 && calls[0] == StructuredRequest(d)
    ensures StructuredResult(service(calls[0]), parse).Some? ==>
      |calls| == 1 && r == Ok(StructuredResult(service(calls[0]), parse).value)
    ensures StructuredResult(service(calls[0]), parse).None? ==>
      |calls| == 2 && calls[1] == FallbackRequest(d) && r == FallbackOutcome(service(calls[1]), parse)
    ensures r.Err? ==> |calls| == 2
  {
    var first := StructuredRequest(d);
    calls := [first];
    var reply := service(first);
    var parsed := StructuredResult(reply, parse);
    if parsed.Some? {
      return Ok(parsed.value), calls;
    }
    var second := FallbackRequest(d);
    calls := calls + [second];
    var fallbackReply := service(second);
    r := FallbackOutcome(fallbackReply, parse);
  }

  /** The fallback request is the structured one with the suffix appended and the schema dropped. */
  lemma FallbackDiffersOnlyBySuffix(d: Canvas)
    ensures FallbackRequest(d).model == StructuredRequest(d).model
    ensures FallbackRequest(d).prompt == StructuredRequest(d).prompt + FallbackSuffix
    ensures StructuredRequest(d).config.Some? && FallbackRequest(d).config.None?
  {
  }

  /** A service that rejects the schema request but answers the fallback with a fenced body yields that body's parse. */
  lemma FencedFallbackRecovers(d: Canvas, service: Request -> Reply, parse: string -> Option<AnalysisResult>, body: string, v: AnalysisResult)
    requires service(StructuredRequest(d)) == Threw
    requires service(FallbackRequest(d)) == Answered(Some(JsonOpen + body + JsonClose))
    requires NoBacktick(body) && parse(body) == Some(v)
    ensures FallbackOutcome(service(FallbackRequest(d)), parse) == Ok(v)
    ensures StructuredResult(service(StructuredRequest(d)), parse).None?
  {
    ExtractTaggedFence(body);
  }
}
