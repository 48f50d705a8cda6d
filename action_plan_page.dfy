// The departmental action-plan page: the icon each department gets, the
// colour cycle of the department cards, the class strings derived from a
// colour, and the choice between the cards and the empty-state message.

module ActionPlanPage {
  import opened Wrappers
  import opened Text
  import opened Types

  /** The department icons. */
  datatype Icon = Megaphone | TrendingUp | Settings | DollarSign | Users | Briefcase

  /** The icon of a department, chosen on the lower-cased name group by group; the first group that matches wins. */
  function IconForDept(deptName: string): Icon {
    var name := Lower(deptName);
    if Contains(name, "market") || Contains(name, "marketing") || Contains(name, "promotion") then Megaphone
    else if Contains(name, "sales") || Contains(name, "sales") || Contains(name, "selling") then TrendingUp
    else if Contains(name, "oper") || Contains(name, "operation") || Contains(name, "management") then Settings
    else if Contains(name, "finan") || Contains(name, "accounts") || Contains(name, "finance") then DollarSign
    else if Contains(name, "hr") || Contains(name, "human") || Contains(name, "team") then Users
    else Briefcase
  }

  /** The marketing group: "market" or "promotion" ("marketing" contains "market"). */
  predicate MarketingName(name: string) {
    Contains(name, "market") || Contains(name, "promotion")
  }

  /** The sales group: "sales" or "selling". */
  predicate SalesName(name: string) {
    Contains(name, "sales") || Contains(name, "selling")
  }

  /** The operations group: "oper" or "management" ("operation" contains "oper"). */
  predicate OperationsName(name: string) {
    Contains(name, "oper") || Contains(name, "management")
  }

  /** The finance group: "finan" or "accounts" ("finance" contains "finan"). */
  predicate FinanceName(name: string) {
    Contains(name, "finan") || Contains(name, "accounts")
  }

  /** The people group: "hr", "human" or "team". */
  predicate PeopleName(name: string) {
    Contains(name, "hr") || Contains(name, "human") || Contains(name, "team")
  }

  /** The redundant tests of the chain add nothing: each icon is chosen exactly when its group matches and no earlier group does. */
  lemma IconByGroup(deptName: string)
    ensures var name := Lower(deptName);
      (IconForDept(deptName) == Megaphone <==> MarketingName(name)) &&
      (IconForDept(deptName) == TrendingUp <==> !MarketingName(name) && SalesName(name)) &&
      (IconForDept(deptName) == Settings <==> !MarketingName(name) && !SalesName(name) && OperationsName(name)) &&
      (IconForDept(deptName) == DollarSign <==>
        !MarketingName(name) && !SalesName(name) && !OperationsName(name) && FinanceName(name)) &&
      (IconForDept(deptName) == Users <==>
        !MarketingName(name) && !SalesName(name) && !OperationsName(name) && !FinanceName(name) && PeopleName(name)) &&
      (IconForDept(deptName) == Briefcase <==>
        !MarketingName(name) && !SalesName(name) && !OperationsName(name) && !FinanceName(name) && !PeopleName(name))
  {
    var name := Lower(deptName);
    if Contains(name, "marketing") {
      assert "marketing" == "market" + "ing";
      ContainsPrefix(name, "market", "ing");
    }
    if Contains(name, "operation") {
      assert "operation" == "oper" + "ation";
      ContainsPrefix(name, "oper", "ation");
    }
    if Contains(name, "finance") {
      assert "finance" == "finan" + "ce";
      ContainsPrefix(name, "finan", "ce");
    }
  }

  /** A name containing "market" gets the marketing icon whatever else it contains, "sales" included. */
  lemma MarketBeatsSales(deptName: string)
    requires Contains(Lower(deptName), "market")
    ensures IconForDept(deptName) == Megaphone
  {
  }

  /** The hue of each palette entry. */
  const Hues: seq<string> := ["blue", "emerald", "purple", "orange", "pink"]

  /** The palette entry of a hue: background, text and border classes. */
  function Style(hue: string): string {
    "bg-" + hue + "-50 text-" + hue + "-700 border-" + hue + "-100"
  }

  /** The department-card palette. */
  const Palette: seq<string> := [
    "bg-blue-50 text-blue-700 border-blue-100",
    "bg-emerald-50 text-emerald-700 border-emerald-100",
    "bg-purple-50 text-purple-700 border-purple-100",
    "bg-orange-50 text-orange-700 border-orange-100",
    "bg-pink-50 text-pink-700 border-pink-100"
  ]

  /** Palette entry 0 is the blue style. */
  lemma PaletteBlue()
    ensures Palette[0] == Style("blue")
  {
    var h := "blue";
    assert "bg-" + h + "-50 text-" == "bg-blue-50 text-";
    assert "bg-" + h + "-50 text-" + h + "-700 border-" == "bg-blue-50 text-blue-700 border-";
    assert "bg-" + h + "-50 text-" + h + "-700 border-" + h == "bg-blue-50 text-blue-700 border-blue";
  }

  /** Palette entry 1 is the emerald style. */
  lemma PaletteEmerald()
    ensures Palette[1] == Style("emerald")
  {
    var h := "emerald";
    assert "bg-" + h + "-50 text-" == "bg-emerald-50 text-";
    assert "bg-" + h + "-50 text-" + h + "-700 border-" == "bg-emerald-50 text-emerald-700 border-";
    assert "bg-" + h + "-50 text-" + h + "-700 border-" + h == "bg-emerald-50 text-emerald-700 border-emerald";
  }

  /** Palette entry 2 is the purple style. */
  lemma PalettePurple()
    ensures Palette[2] == Style("purple")
  {
    var h := "purple";
    assert "bg-" + h + "-50 text-" == "bg-purple-50 text-";
    assert "bg-" + h + "-50 text-" + h + "-700 border-" == "bg-purple-50 text-purple-700 border-";
    assert "bg-" + h + "-50 text-" + h + "-700 border-" + h == "bg-purple-50 text-purple-700 border-purple";
  }

  /** Palette entry 3 is the orange style. */
  lemma PaletteOrange()
    ensures Palette[3] == Style("orange")
  {
    var h := "orange";
    assert "bg-" + h + "-50 text-" == "bg-orange-50 text-";
    assert "bg-" + h + "-50 text-" + h + "-700 border-" == "bg-orange-50 text-orange-700 border-";
    assert "bg-" + h + "-50 text-" + h + "-700 border-" + h == "bg-orange-50 text-orange-700 border-orange";
  }

  /** Palette entry 4 is the pink style. */
  lemma PalettePink()
    ensures Palette[4] == Style("pink")
  {
    var h := "pink";
    assert "bg-" + h + "-50 text-" == "bg-pink-50 text-";
    assert "bg-" + h + "-50 text-" + h + "-700 border-" == "bg-pink-50 text-pink-700 border-";
    assert "bg-" + h + "-50 text-" + h + "-700 border-" + h == "bg-pink-50 text-pink-700 border-pink";
  }

  /** Each palette entry is the style of its hue. */
  lemma PaletteFollowsHues()
    ensures |Palette| == |Hues| && forall i :: 0 <= i < |Palette| ==> Palette[i] == Style(Hues[i])
  {
    PaletteBlue();
    PaletteEmerald();
    PalettePurple();
    PaletteOrange();
    PalettePink();
  }

  /** The style of the department card at `index`: the palette cycled. */
  function ColorForDept(index: nat): (style: string)
    ensures style in Palette
  {
    Palette[index % |Palette|]
  }

  /** The colours repeat with period five. */
  lemma ColorPeriodFive(index: nat)
    ensures ColorForDept(index + 5) == ColorForDept(index)
    ensures ColorForDept(index) == Style(Hues[index % 5])
  {
    PaletteFollowsHues();
  }

  /** Consecutive departments within one cycle get distinct colours. */
  lemma ColorsDistinctInCycle(i: nat, j: nat)
    requires i < j < i + 5
    ensures ColorForDept(i) != ColorForDept(j)
  {
    assert i % 5 != j % 5;
  }

  /** The text colour class of a department's roles: the second space-separated token of its style, its hue at shade 700. */
  function RoleText(index: nat): (t: string)
    ensures t == "text-" + Hues[index % 5] + "-700"
  {
    var hue := Hues[index % 5];
    ColorPeriodFive(index);
    StyleTokens(hue);
    Split(ColorForDept(index), " ")[1]
  }

  /** The border class of a task's check box. */
  function BorderClass(roleText: string): string {
    ReplaceFirst(ReplaceFirst(roleText, "text-", "border-"), "700", "300")
  }

  /** The fill class of a task's check mark. */
  function BulletClass(roleText: string): string {
    ReplaceFirst(ReplaceFirst(roleText, "text-", "bg-"), "700", "400")
  }

  /** `s` has no occurrence of the character `c`. */
  predicate Lacks(s: string, c: char) {
    forall i :: 0 <= i < |s| ==> s[i] != c
  }

  /** A concatenation lacks a character its parts lack. */
  lemma LacksConcat(a: string, b: string, c: char)
    requires Lacks(a, c) && Lacks(b, c)
    ensures Lacks(a + b, c)
  {
    forall i | 0 <= i < |a + b| ensures (a + b)[i] != c {
      if i >= |a| { assert (a + b)[i] == b[i - |a|]; }
    }
  }

  /** A hue name: no space and no digit 7. */
  predicate PlainHue(hue: string) {
    Lacks(hue, ' ') && Lacks(hue, '7')
  }

  /** Three space-free tokens joined by single spaces split back into those tokens. */
  lemma SplitThree(a: string, b: string, c: string)
    requires Lacks(a, ' ') && Lacks(b, ' ') && Lacks(c, ' ')
    ensures Split(a + " " + b + " " + c, " ") == [a, b, c]
  {
    var tail := b + [' '] + c;
    assert a + " " + b + " " + c == a + [' '] + tail;
    SplitFirst(a, ' ', tail);
    SplitFirst(b, ' ', c);
    SplitNone(c, ' ');
    assert Split(tail, " ") == [b, c];
  }

  /** `prefix + hue + suffix` lacks a character that all three lack. */
  lemma Framed(prefix: string, hue: string, suffix: string, c: char)
    requires Lacks(prefix, c) && Lacks(hue, c) && Lacks(suffix, c)
    ensures Lacks(prefix + hue + suffix, c)
  {
    LacksConcat(prefix, hue, c);
    LacksConcat(prefix + hue, suffix, c);
  }

  /** A hue's style splits into its background, text and border classes. */
  lemma StyleTokens(hue: string)
    requires PlainHue(hue)
    ensures Split(Style(hue), " ") == ["bg-" + hue + "-50", "text-" + hue + "-700", "border-" + hue + "-100"]
  {
    var bg, text, border := "bg-" + hue + "-50", "text-" + hue + "-700", "border-" + hue + "-100";
    Framed("bg-", hue, "-50", ' ');
    Framed("text-", hue, "-700", ' ');
    Framed("border-", hue, "-100", ' ');
    assert Style(hue) == bg + " " + text + " " + border;
    SplitThree(bg, text, border);
  }

  /** Replacing the leading `prefix` of `prefix + rest` gives `rep + rest`. */
  lemma ReplaceLeading(prefix: string, rest: string, rep: string)
    requires |prefix| > 0
    ensures ReplaceFirst(prefix + rest, prefix, rep) == rep + rest
  {
    var s := prefix + rest;
    assert OccursAt(s, prefix, 0) by { assert s[..|prefix|] == prefix; }
    FindFirstAt(s, prefix, 0);
    assert s[|prefix|..] == rest;
  }

  /** Replacing "700" in `lead + "700"`, where `lead` has no 7, gives `lead + rep`. */
  lemma ReplaceTrailing700(lead: string, rep: string)
    requires Lacks(lead, '7')
    ensures ReplaceFirst(lead + "700", "700", rep) == lead + rep
  {
    var s := lead + "700";
    assert OccursAt(s, "700", |lead|) by { assert s[|lead|..|lead| + 3] == "700"; }
    assert forall k :: 0 <= k < |lead| ==> s[k] != "700"[0] by {
      forall k | 0 <= k < |lead| ensures s[k] != '7' { assert s[k] == lead[k]; }
    }
    FindFirstAt(s, "700", |lead|);
    assert s[..|lead|] == lead;
    assert s[|lead| + 3..] == [];
  }

  /** Rewriting the text class of a hue: "text-" becomes `kind`, then "700" becomes `shade`. */
  lemma RewriteTextClass(hue: string, kind: string, shade: string)
    requires Lacks(hue, '7') && Lacks(kind, '7')
    ensures ReplaceFirst(ReplaceFirst("text-" + hue + "-700", "text-", kind), "700", shade) == kind + hue + "-" + shade
  {
    assert "text-" + hue + "-700" == "text-" + (hue + "-700");
    ReplaceLeading("text-", hue + "-700", kind);
    Framed(kind, hue, "-", '7');
    assert kind + (hue + "-700") == kind + hue + "-" + "700";
    ReplaceTrailing700(kind + hue + "-", shade);
  }

  /** For a text class, the border class is its hue at shade 300. */
  lemma BorderOfHue(hue: string)
    requires PlainHue(hue)
    ensures BorderClass("text-" + hue + "-700") == "border-" + hue + "-300"
  {
    RewriteTextClass(hue, "border-", "300");
  }

  /** For a text class, the fill class is its hue at shade 400. */
  lemma BulletOfHue(hue: string)
    requires PlainHue(hue)
    ensures BulletClass("text-" + hue + "-700") == "bg-" + hue + "-400"
  {
    RewriteTextClass(hue, "bg-", "400");
  }

  /** Department `index` gets border and fill classes of its palette hue at shades 300 and 400. */
  lemma DepartmentClasses(index: nat)
    ensures BorderClass(RoleText(index)) == "border-" + Hues[index % 5] + "-300"
    ensures BulletClass(RoleText(index)) == "bg-" + Hues[index % 5] + "-400"
  {
    BorderOfHue(Hues[index % 5]);
    BulletOfHue(Hues[index % 5]);
  }

  /** The background of the role cards of the department at `index`. */
  function RoleCardBackground(index: nat): (bg: string)
    ensures bg == "bg-slate-50 border-slate-100" <==> index % 2 == 0
  {
    if index % 2 == 0 then "bg-slate-50 border-slate-100" else "bg-white border-slate-100 shadow-sm"
  }

  /** Role-card backgrounds alternate between neighbouring departments. */
  lemma RoleCardsAlternate(index: nat)
    ensures RoleCardBackground(index + 1) != RoleCardBackground(index)
    ensures RoleCardBackground(index + 2) == RoleCardBackground(index)
  {
  }

  /** The departments shown: the plan, or none when the report has no plan. */
  function ActionPlans(r: AnalysisResult): (plans: seq<DepartmentPlan>)
    ensures r.departmentalActionPlan.Some? ==> plans == r.departmentalActionPlan.value
    ensures r.departmentalActionPlan.None? ==> plans == []
  {
    r.departmentalActionPlan.GetOr([])
  }

  /** One role card: the role, its title and check-box classes, its background and its tasks. */
  datatype RoleCard = RoleCard(role: string, background: string, titleClass: string, boxClass: string, markClass: string, tasks: seq<string>)

  /** One department card: the name, its icon, its style and its role cards. */
  datatype DeptCard = DeptCard(department: string, icon: Icon, style: string, roles: seq<RoleCard>)

  /** The page body: the empty-state message, or one card per department. */
  datatype Content = NoPlanMessage | DepartmentCards(cards: seq<DeptCard>)

  /** The role cards of the department at `index`. */
  function RoleCards(index: nat, roles: seq<RolePlan>): (cards: seq<RoleCard>)
    ensures |cards| == |roles|
    ensures forall k :: 0 <= k < |roles| ==> cards[k].role == roles[k].role && cards[k].tasks == roles[k].tasks
    ensures forall k :: 0 <= k < |roles| ==> cards[k].background == RoleCardBackground(index)
    ensures forall k :: 0 <= k < |roles| ==>
      cards[k].titleClass == RoleText(index) && cards[k].boxClass == BorderClass(RoleText(index)) &&
      cards[k].markClass == BulletClass(RoleText(index))
  {
    var roleText := RoleText(index);
    seq(|roles|, k requires 0 <= k < |roles| =>
      RoleCard(roles[k].role, RoleCardBackground(index), roleText, BorderClass(roleText), BulletClass(roleText), roles[k].tasks))
  }

  /** The department card at `index`: its name, the icon of its name, the cycled palette style and one role card per role. */
  function DepartmentCard(index: nat, dept: DepartmentPlan): (c: DeptCard)
    ensures c.department == dept.department && c.icon == IconForDept(dept.department)
    ensures c.style == Style(Hues[index % 5])
    ensures c.roles == RoleCards(index, dept.roles)
  {
    ColorPeriodFive(index);
    DeptCard(dept.department, IconForDept(dept.department), ColorForDept(index), RoleCards(index, dept.roles))
  }

  /**
   * Every role card of department `index` draws its title in the hue at shade 700, its task boxes at 300
   * and its check marks at 400, and the role cards follow the department's roles one for one.
   */
  lemma DepartmentCardHues(index: nat, dept: DepartmentPlan)
    ensures var c := DepartmentCard(index, dept); var hue := Hues[index % 5];
      |c.roles| == |dept.roles| &&
      forall k :: 0 <= k < |c.roles| ==>
        c.roles[k].role == dept.roles[k].role && c.roles[k].tasks == dept.roles[k].tasks &&
        c.roles[k].titleClass == "text-" + hue + "-700" &&
        c.roles[k].boxClass == "border-" + hue + "-300" &&
        c.roles[k].markClass == "bg-" + hue + "-400"
  {
    DepartmentClasses(index);
  }

  /** The page shows the message exactly when the plan is absent or empty, and otherwise one card per department, in order. */
  function Page(r: AnalysisResult): (c: Content)
    ensures c.NoPlanMessage? <==> r.departmentalActionPlan.None? || r.departmentalActionPlan.value == []
    ensures c.DepartmentCards? ==> r.departmentalActionPlan.Some? && |c.cards| == |r.departmentalActionPlan.value|
    ensures c.DepartmentCards? ==>
      forall i :: 0 <= i < |c.cards| ==> c.cards[i] == DepartmentCard(i, r.departmentalActionPlan.value[i])
  {
    var plans := ActionPlans(r);
    if |plans| == 0 then NoPlanMessage
    else DepartmentCards(seq(|plans|, i requires 0 <= i < |plans| => DepartmentCard(i, plans[i])))
  }
}
