// The application session: the canvas being edited, the current view, the
// last analysis, one error message and the history archive kept in the
// browser's key-value store.

module App {
  import opened Wrappers
  import opened Types
  import Text
  import BmcInput
  import GeminiService

  // ---------------------------------------------------------------------------
  // Constants

  /** The store key the history list is kept under. */
  const HistoryKey: string := "bmc_history"

  /** The most items the history list keeps. */
  const HistoryCap: nat := 20

  /** How many characters of the preview source a preview keeps before the ellipsis. */
  const PreviewLength: nat := 60

  /** The preview used when none of the three preview fields has a value. */
  const Untitled: string := "Untitled Plan"

  /** The message shown when an analysis fails. */
  const AnalysisError: string := "দুঃখিত, এনালাইসিস করতে সমস্যা হচ্ছে। অনুগ্রহ করে আবার চেষ্টা করুন।"

  /** The canvas a session starts from and a "start new" returns to: all nine fields empty. */
  const InitialCanvas: Canvas := Canvas("", "", "", "", "", "", "", "", "")

  /** The initial canvas has no value and so is not a valid form. */
  lemma InitialCanvasEmpty()
    ensures forall f: Field :: InitialCanvas.Get(f) == ""
    ensures !BmcInput.IsFormValid(InitialCanvas)
  {
  }

  // ---------------------------------------------------------------------------
  // The stored history

  /**
   * What the store holds under a key. JSON text is kept abstract: either the
   * text of a serialised item list, or text that is empty or does not parse.
   */
  datatype Stored = Json(items: seq<HistoryItem>) | Unparsable(raw: string)

  /** The history a fresh session reads from the store: nothing when the key is missing or its text does not parse. */
  function LoadHistory(store: map<string, Stored>): (h: seq<HistoryItem>)
    ensures HistoryKey !in store ==> h == []
    ensures HistoryKey in store && store[HistoryKey].Unparsable? ==> h == []
    ensures HistoryKey in store && store[HistoryKey].Json? ==> h == store[HistoryKey].items
  {
    if HistoryKey in store && store[HistoryKey].Json? then store[HistoryKey].items else []
  }

  /** Writing a list under the history key and loading it back gives that list. */
  lemma StoreRoundTrip(store: map<string, Stored>, h: seq<HistoryItem>)
    ensures LoadHistory(store[HistoryKey := Json(h)]) == h
  {
  }

  // ---------------------------------------------------------------------------
  // History items

  /** The text a preview is cut from: the first of value propositions, key activities and customer segments that is not empty. */
  function PreviewSource(d: Canvas): (s: string)
    ensures s != ""
    ensures s in [d.valuePropositions, d.keyActivities, d.customerSegments, Untitled]
    ensures d.valuePropositions != "" ==> s == d.valuePropositions
    ensures d.valuePropositions == "" && d.keyActivities != "" ==> s == d.keyActivities
    ensures d.valuePropositions == "" && d.keyActivities == "" && d.customerSegments != "" ==> s == d.customerSegments
  {
    if d.valuePropositions != "" then d.valuePropositions
    else if d.keyActivities != "" then d.keyActivities
    else if d.customerSegments != "" then d.customerSegments
    else Untitled
  }

  /**
   * The placeholder appears when the three preview fields are empty, and, as
   * long as none of them holds the placeholder text itself, only then.
   * Emptiness is checked without trimming: a field of spaces is a preview source.
   */
  lemma PlaceholderPreview(d: Canvas)
    ensures d.valuePropositions == "" && d.keyActivities == "" && d.customerSegments == "" ==> PreviewSource(d) == Untitled
    ensures PreviewSource(d) == Untitled && Untitled !in [d.valuePropositions, d.keyActivities, d.customerSegments] ==>
      d.valuePropositions == "" && d.keyActivities == "" && d.customerSegments == ""
  {
  }

  /** The first sixty characters of the source, with an ellipsis when the source is longer. */
  function Preview(src: string): (p: string)
    ensures |p| <= PreviewLength + 3
    ensures |src| <= PreviewLength ==> p == src
    ensures |src| > PreviewLength ==> |p| == PreviewLength + 3 && p[..PreviewLength] == src[..PreviewLength] && p[PreviewLength..] == "..."
  {
    var head := if |src| <= PreviewLength then src else src[..PreviewLength];
    head + (if |src| > PreviewLength then "..." else "")
  }

  /** The item a save creates: the given id and time, the preview, and a copy of the canvas. */
  function NewItem(d: Canvas, id: string, timestamp: string): (item: HistoryItem)
    ensures item.id == id && item.timestamp == timestamp && item.data == d
    ensures item.preview == Preview(PreviewSource(d)) && 0 < |item.preview| <= PreviewLength + 3
  {
    HistoryItem(id, timestamp, Preview(PreviewSource(d)), d)
  }

  function Min(a: nat, b: nat): nat {
    if a <= b then a else b
  }

  /** The list with `item` in front, cut to the cap: the newest item first, then the earlier items in their order, dropping the oldest. */
  function PushCapped(item: HistoryItem, h: seq<HistoryItem>): (u: seq<HistoryItem>)
    ensures |u| == Min(|h| + 1, HistoryCap)
    ensures u[0] == item
    ensures forall i :: 1 <= i < |u| ==> u[i] == h[i - 1]
  {
    ([item] + h)[..Min(|h| + 1, HistoryCap)]
  }

  /** A push onto a full list drops exactly the oldest entries beyond the cap. */
  lemma PushCappedDropsOldest(item: HistoryItem, h: seq<HistoryItem>)
    requires |h| >= HistoryCap
    ensures PushCapped(item, h) == [item] + h[..HistoryCap - 1]
  {
    var u := PushCapped(item, h);
    var v := [item] + h[..HistoryCap - 1];
    assert |u| == |v|;
    forall i | 0 <= i < |u| ensures u[i] == v[i] {
      if i > 0 {
        assert v[i] == h[i - 1];
      }
    }
  }

  /** The history after a save of canvas `d`: unchanged for a form without a value, otherwise the new item pushed onto it. */
  function AfterSave(d: Canvas, h: seq<HistoryItem>, id: string, timestamp: string): (u: seq<HistoryItem>)
    ensures !BmcInput.IsFormValid(d) ==> u == h
    ensures BmcInput.IsFormValid(d) ==> |u| == Min(|h| + 1, HistoryCap) && u[0] == NewItem(d, id, timestamp)
    ensures BmcInput.IsFormValid(d) ==> forall i :: 1 <= i < |u| ==> u[i] == h[i - 1]
  {
    if BmcInput.IsFormValid(d) then PushCapped(NewItem(d, id, timestamp), h) else h
  }

  /** The store after a save of canvas `d` that left the history `u`: unchanged for a form without a value, otherwise `u` written under the history key. */
  function StoreAfterSave(d: Canvas, store: map<string, Stored>, u: seq<HistoryItem>): (s: map<string, Stored>)
    ensures !BmcInput.IsFormValid(d) ==> s == store
    ensures BmcInput.IsFormValid(d) ==> s.Keys == store.Keys + {HistoryKey} && s[HistoryKey] == Json(u)
    ensures forall k :: k in store && k != HistoryKey ==> k in s && s[k] == store[k]
  {
    if BmcInput.IsFormValid(d) then store[HistoryKey := Json(u)] else store
  }

  /** `h.filter(x => x.id !== id)`. */
  function WithoutId(h: seq<HistoryItem>, id: string): (u: seq<HistoryItem>)
    ensures |u| <= |h|
    ensures forall x :: multiset(u)[x] == if x.id == id then 0 else multiset(h)[x]
  {
    if h == [] then []
    else
      var rest := WithoutId(h[1..], id);
      assert h == [h[0]] + h[1..];
      if h[0].id != id then [h[0]] + rest else rest
  }

  /** The filter acts piecewise: the kept items of `a + b` are those of `a` followed by those of `b`, which fixes their order. */
  lemma {:induction false} WithoutIdAppend(a: seq<HistoryItem>, b: seq<HistoryItem>, id: string)
    ensures WithoutId(a + b, id) == WithoutId(a, id) + WithoutId(b, id)
  {
    if a == [] {
      assert a + b == b;
    } else {
      assert (a + b)[0] == a[0];
      assert (a + b)[1..] == a[1..] + b;
      WithoutIdAppend(a[1..], b, id);
    }
  }

  /** A list with no item under `id` is left as it is. */
  lemma {:induction false} WithoutAbsentId(h: seq<HistoryItem>, id: string)
    requires forall i :: 0 <= i < |h| ==> h[i].id != id
    ensures WithoutId(h, id) == h
  {
    if h != [] {
      WithoutAbsentId(h[1..], id);
    }
  }

  /** Deleting an id twice gives the list deleting it once gives. */
  lemma WithoutIdIdempotent(h: seq<HistoryItem>, id: string)
    ensures WithoutId(WithoutId(h, id), id) == WithoutId(h, id)
  {
    var u := WithoutId(h, id);
    forall i | 0 <= i < |u| ensures u[i].id != id {
      assert u[i] in multiset(u);
    }
    WithoutAbsentId(u, id);
  }

  // ---------------------------------------------------------------------------
  // Header controls

  /** The edit-mode button shows on the report and the action-plan views. */
  function EditModeVisible(view: AppState): (b: bool)
    ensures b <==> view in {Result, ActionPlan}
  {
    view == Result || view == ActionPlan
  }

  /** The view-report button shows on the input view while a report exists. */
  function ViewReportVisible(view: AppState, result: Option<AnalysisResult>): (b: bool)
    ensures b <==> view == Input && result.Some?
  {
    view == Input && result.Some?
  }

  /** The start-new button shows while a report exists or some field is not the empty string (untrimmed). */
  function StartNewVisible(d: Canvas, result: Option<AnalysisResult>): (b: bool)
    ensures b <==> result.Some? || exists f: Field :: d.Get(f) != ""
  {
    result.Some? || exists f: Field :: d.Get(f) != ""
  }

  /** The edit-mode and view-report buttons never show together, and neither shows while an analysis runs. */
  lemma HeaderButtonsExclusive(view: AppState, result: Option<AnalysisResult>)
    ensures !(EditModeVisible(view) && ViewReportVisible(view, result))
    ensures !EditModeVisible(Analyzing) && !ViewReportVisible(Analyzing, result)
  {
  }

  /** Whenever the view-report button shows, start-new shows beside it, whatever the canvas holds. */
  lemma ViewReportOffersStartNew(view: AppState, d: Canvas, result: Option<AnalysisResult>)
    requires ViewReportVisible(view, result)
    ensures StartNewVisible(d, result)
  {
  }

  /** A form that can be submitted always offers start-new; the converse fails for a canvas of spaces. */
  lemma ValidFormOffersStartNew(d: Canvas, result: Option<AnalysisResult>)
    requires BmcInput.IsFormValid(d)
    ensures StartNewVisible(d, result)
  {
    var f: Field :| !Text.Blank(d.Get(f));
    assert d.Get(f) != "";
  }

  /** A canvas of one space offers start-new but cannot be submitted. */
  lemma SpacesOfferStartNew()
    ensures var d := InitialCanvas.(keyPartners := " ");
      StartNewVisible(d, None) && !BmcInput.IsFormValid(d)
  {
    var d := InitialCanvas.(keyPartners := " ");
    assert d.Get(KeyPartners) != "";
    forall f: Field ensures Text.Blank(d.Get(f)) {
      if f == KeyPartners {
        assert Text.IsSpace(d.Get(f)[0]);
      }
    }
  }

  // ---------------------------------------------------------------------------
  // The session

  class Session {
    /** The canvas being edited. */
    var data: Canvas
    /** The view on screen. */
    var view: AppState
    /** The last analysis, kept across edits. */
    var result: Option<AnalysisResult>
    /** The message of the last failed analysis, if any. */
    var error: Option<string>
    /** The saved canvases, newest first. */
    var history: seq<HistoryItem>
    /** Whether the history dialog is open. */
    var historyOpen: bool
    /** The browser's key-value store. */
    var store: map<string, Stored>

    /** The store always gives back the history on screen. */
    predicate Valid()
      reads this
    {
      LoadHistory(store) == history
    }

    /** The report and action-plan views only show while a report exists (otherwise they render nothing). */
    predicate Consistent()
      reads this
    {
      view in {Result, ActionPlan} ==> result.Some?
    }

    /** A session on a browser whose store holds `saved`: the initial state, then the history loaded on mount. */
    constructor(saved: map<string, Stored>)
      ensures data == InitialCanvas && view == Input && result == None && error == None && !historyOpen
      ensures store == saved && history == LoadHistory(saved)
      ensures Valid() && Consistent()
    {
      data := InitialCanvas;
      view := Input;
      result := None;
      error := None;
      history := [];
      historyOpen := false;
      store := saved;
      new;
      LoadSavedHistory();
    }

    /** The mount effect: a parsable stored list replaces the history; a missing, empty or unparsable text leaves it as it is. */
    method LoadSavedHistory()
      modifies this`history
      ensures HistoryKey in store && store[HistoryKey].Json? ==> history == store[HistoryKey].items
      ensures !(HistoryKey in store && store[HistoryKey].Json?) ==> history == old(history)
    {
      if HistoryKey in store {
        match store[HistoryKey]
        case Json(items) => history := items;
        case Unparsable(_) =>
      }
    }

    /**
     * Saves the canvas: nothing happens for a form without a value;
     * otherwise the new item goes in front, the list is cut to the cap and the
     * whole list is written to the store.
     */
    method SaveToHistory(id: string, timestamp: string)
      requires Valid()
      modifies this`history, this`store
      ensures history == AfterSave(data, old(history), id, timestamp)
      ensures store == StoreAfterSave(data, old(store), history)
      ensures Valid()
    {
      if BmcInput.IsFormValid(data) {
        var item := NewItem(data, id, timestamp);
        var updated := PushCapped(item, history);
        history := updated;
        store := store[HistoryKey := Json(updated)];
      }
    }

    /** Removes every item under `id`, keeping the others in order, and writes the list to the store. */
    method DeleteHistoryItem(id: string)
      modifies this`history, this`store
      ensures history == WithoutId(old(history), id)
      ensures store == old(store)[HistoryKey := Json(history)]
      ensures Valid()
    {
      var updated := WithoutId(history, id);
      history := updated;
      store := store[HistoryKey := Json(updated)];
    }

    /** Loads a saved canvas into the form and drops the current report; the error and the history stay. */
    method RestoreHistory(saved: Canvas)
      modifies this`data, this`view, this`result
      ensures data == saved && view == Input && result == None
      ensures Consistent()
    {
      data := saved;
      view := Input;
      result := None;
    }

    /** Sets one field of the canvas and leaves the other eight as they were. */
    method InputChange(f: Field, value: string)
      modifies this`data
      ensures data.Get(f) == value
      ensures forall g :: g != f ==> data.Get(g) == old(data).Get(g)
    {
      data := data.With(f, value);
    }

    /** The first half of a submit: save the canvas, then show the progress view with no error. */
    method StartSubmit(id: string, timestamp: string)
      requires Valid()
      modifies this`history, this`store, this`view, this`error
      ensures history == AfterSave(data, old(history), id, timestamp)
      ensures store == StoreAfterSave(data, old(store), history)
      ensures view == Analyzing && error == None
      ensures Valid() && Consistent()
    {
      SaveToHistory(id, timestamp);
      view := Analyzing;
      error := None;
    }

    /**
     * The second half of a submit: a report is stored and shown; a failure
     * returns to the form with the fixed message and keeps the earlier report.
     * The outcome is written whatever the view is by then.
     */
    method CompleteSubmit(outcome: Outcome<AnalysisResult, GeminiService.Failure>)
      modifies this`result, this`view, this`error
      ensures outcome.Ok? ==> result == Some(outcome.value) && view == Result && error == old(error)
      ensures outcome.Err? ==> result == old(result) && view == Input && error == Some(AnalysisError)
      ensures Consistent()
    {
      match outcome
      case Ok(v) =>
        result := Some(v);
        view := Result;
      case Err(_) =>
        error := Some(AnalysisError);
        view := Input;
    }

    /** A whole submit, with the analysis run against the given service: save, progress view, analysis, outcome. */
    method Submit(id: string, timestamp: string, service: GeminiService.Request -> GeminiService.Reply,
                  parse: string -> Option<AnalysisResult>)
      returns (outcome: Outcome<AnalysisResult, GeminiService.Failure>, calls: seq<GeminiService.Request>)
      requires Valid()
      modifies this`history, this`store, this`view, this`error, this`result
      ensures history == AfterSave(data, old(history), id, timestamp)
      ensures store == StoreAfterSave(data, old(store), history)
      ensures 1 <= |calls| <= 2 && calls[0] == GeminiService.StructuredRequest(data)
      ensures GeminiService.StructuredResult(service(calls[0]), parse).Some? ==>
        |calls| == 1 && outcome == Ok(GeminiService.StructuredResult(service(calls[0]), parse).value)
      ensures GeminiService.StructuredResult(service(calls[0]), parse).None? ==>
        |calls| == 2 && calls[1] == GeminiService.FallbackRequest(data) &&
        outcome == GeminiService.FallbackOutcome(service(calls[1]), parse)
      ensures outcome.Ok? ==> result == Some(outcome.value) && view == Result && error == None
      ensures outcome.Err? ==> result == old(result) && view == Input && error == Some(AnalysisError) && |calls| == 2
      ensures Valid() && Consistent()
    {
      StartSubmit(id, timestamp);
      outcome, calls := GeminiService.AnalyzeBmc(data, service, parse);
      CompleteSubmit(outcome);
    }

    /** Back to the form, keeping the canvas and the report (the edit-mode button and the logo). */
    method EditMode()
      modifies this`view
      ensures view == Input
      ensures !EditModeVisible(view)
      ensures ViewReportVisible(view, result) <==> result.Some?
      ensures Consistent()
    {
      view := Input;
    }

    /** Shows the report, only when one exists. */
    method ViewReport()
      modifies this`view
      ensures old(result).Some? ==> view == Result
      ensures old(result).None? ==> view == old(view)
      ensures ViewReportVisible(old(view), old(result)) ==> view == Result && EditModeVisible(view)
      ensures old(Consistent()) ==> Consistent()
    {
      if result.Some? {
        view := Result;
      }
    }

    /** Starts over: the form view, no report and an empty canvas; the error and the history stay. */
    method StartNew()
      modifies this`view, this`result, this`data
      ensures view == Input && result == None && data == InitialCanvas
      ensures Consistent()
    {
      view := Input;
      result := None;
      data := InitialCanvas;
    }

    /** Shows the action plan, whatever the current view. */
    method ViewActionPlan()
      modifies this`view
      ensures view == ActionPlan
      ensures Consistent() <==> result.Some?
    {
      view := ActionPlan;
    }

    /** Back from the action plan to the report, whatever the current view. */
    method BackFromActionPlan()
      modifies this`view
      ensures view == Result
      ensures Consistent() <==> result.Some?
    {
      view := Result;
    }

    /** Opens the history dialog. */
    method OpenHistory()
      modifies this`historyOpen
      ensures historyOpen
    {
      historyOpen := true;
    }

    /** Closes the history dialog. */
    method CloseHistory()
      modifies this`historyOpen
      ensures !historyOpen
    {
      historyOpen := false;
    }
  }
}
