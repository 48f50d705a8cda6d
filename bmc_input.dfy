// The canvas input form: the validity guard on its two buttons, the submit
// label, and what each input card shows and clears.

module BmcInput {
  import opened Wrappers
  import opened Text
  import opened Types

  /** `Object.values(data)`: the nine values in declaration order. */
  function Values(d: Canvas): (vs: seq<string>)
    ensures |vs| == |AllFields| && forall i :: 0 <= i < |AllFields| ==> vs[i] == d.Get(AllFields[i])
  {
    seq(|AllFields|, i requires 0 <= i < |AllFields| => d.Get(AllFields[i]))
  }

  /** `vs.some(v => v.trim().length > 0)`. */
  function AnyFilled(vs: seq<string>): (b: bool)
    ensures b <==> exists v :: v in vs && !Blank(v)
  {
    if vs == [] then false
    else
      var rest := AnyFilled(vs[1..]);
      TrimEmptyIffBlank(vs[0]);
      assert vs == [vs[0]] + vs[1..];
      |Trim(vs[0])| > 0 || rest
  }

  /** Some value is not blank exactly when some field is not blank. */
  lemma ValuesCoverFields(d: Canvas)
    ensures (exists v :: v in Values(d) && !Blank(v)) <==> exists f: Field :: !Blank(d.Get(f))
  {
    var vs := Values(d);
    if v :| v in vs && !Blank(v) {
      var i :| 0 <= i < |vs| && vs[i] == v;
      assert !Blank(d.Get(AllFields[i]));
    }
    if f: Field :| !Blank(d.Get(f)) {
      assert vs[FieldIndex(f)] in vs;
    }
  }

  /** The form is valid exactly when at least one of the nine fields trims to a non-empty value. */
  function IsFormValid(d: Canvas): (valid: bool)
    ensures valid <==> exists f: Field :: !Blank(d.Get(f))
  {
    ValuesCoverFields(d);
    AnyFilled(Values(d))
  }

  /** A form whose fields are all empty strings is invalid. */
  lemma EmptyFormInvalid(d: Canvas)
    requires forall f: Field :: d.Get(f) == ""
    ensures !IsFormValid(d)
  {
    forall f: Field ensures Blank(d.Get(f)) {
      assert d.Get(f) == "";
    }
  }

  /** Any one field with a visible character makes the form valid. */
  lemma FilledFieldMakesValid(d: Canvas, f: Field, i: nat)
    requires i < |d.Get(f)| && !IsSpace(d.Get(f)[i])
    ensures IsFormValid(d)
  {
    assert !Blank(d.Get(f));
  }

  /** The two buttons of the form's footer. */
  datatype Button = SaveDraft | Submit

  /** The button a click reaches: none while a button is disabled, that is, while the form is invalid. */
  function Click(d: Canvas, b: Button): (fired: Option<Button>)
    ensures fired.Some? <==> exists f: Field :: !Blank(d.Get(f))
    ensures fired.Some? ==> fired.value == b
  {
    if IsFormValid(d) then Some(b) else None
  }

  /** On an all-blank form neither save-draft nor submit can fire. */
  lemma BlankFormBlocksActions(d: Canvas)
    requires forall f: Field :: Blank(d.Get(f))
    ensures Click(d, SaveDraft).None? && Click(d, Submit).None?
  {
  }

  /** The submit button's label on a valid form. */
  const AnalyseLabel: string := "এনালাইসিস করুন"

  /** The submit button's label on an invalid form. */
  const FillInLabel: string := "তথ্য পূরণ করুন"

  /** The submit label says "analyse" exactly on a valid form and "fill in data" otherwise. */
  function SubmitLabel(d: Canvas): (s: string)
    ensures s == AnalyseLabel <==> exists f: Field :: !Blank(d.Get(f))
    ensures s == FillInLabel <==> !exists f: Field :: !Blank(d.Get(f))
  {
    if IsFormValid(d) then AnalyseLabel else FillInLabel
  }

  /** The label shows "analyse" exactly when the submit button can fire. */
  lemma LabelMatchesSubmit(d: Canvas)
    ensures SubmitLabel(d) == AnalyseLabel <==> Click(d, Submit) == Some(Submit)
  {
  }

  /** What one input card shows: its text, its character counter and whether its clear button is visible. */
  datatype CardView = CardView(shown: string, count: nat, clearVisible: bool)

  /** The card of field `f`: the value with an empty-string fallback, its length, and a clear button only for a non-empty value. */
  function Card(d: Canvas, f: Field): (c: CardView)
    ensures c.shown == d.Get(f) && c.count == |d.Get(f)|
    ensures c.clearVisible <==> c.count > 0
  {
    var value := if d.Get(f) == "" then "" else d.Get(f);
    CardView(value, |value|, value != "")
  }

  /** A single-field edit as the form reports it to its owner. */
  datatype Edit = Edit(field: Field, value: string)

  /** Clearing a card asks its owner to set that one field to "". */
  function Clear(f: Field): (e: Edit)
    ensures e.field == f && e.value == ""
  {
    Edit(f, "")
  }

  /** Applying a clear empties the cleared card and leaves every other card as it was. */
  lemma ClearResetsCard(d: Canvas, f: Field)
    ensures Card(d.With(Clear(f).field, Clear(f).value), f) == CardView("", 0, false)
    ensures forall g :: g != f ==> Card(d.With(Clear(f).field, Clear(f).value), g) == Card(d, g)
  {
  }
}
