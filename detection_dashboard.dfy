/** The scanner view: the input text cell and its three updates, the submit
    guard, the category label of the result card, and which parts are shown. */
module DetectionDashboard {
  import opened Types
  import opened JsString
  import opened GeminiService
  import opened App

  /** The sentence the Load Sample button puts in the input. */
  const SampleText: string := "That's really inspiring! Keep up the great work."

  /** The text area's state cell. */
  class Dashboard {
    var inputText: string

    constructor ()
      ensures inputText == ""
    {
      inputText := "";
    }

    /** The text area's change handler. */
    method Change(value: string)
      modifies this
      ensures inputText == value
    {
      inputText := value;
    }

    /** The Clear button. */
    method Clear()
      modifies this
      ensures inputText == ""
    {
      inputText := "";
    }

    /** The Load Sample button. */
    method LoadSample()
      modifies this
      ensures inputText == SampleText
    {
      inputText := SampleText;
    }
  }

  // The form is mounted only while the scanner tab is open. Leaving the tab
  // discards it with its input, and opening the tab again mounts a new form
  // whose input starts empty.

  /** A navigation button, given the scanner form mounted before it
      (`form`): the form the scanner shows afterwards is `form` itself only
      when the scanner tab stays open, and otherwise a new, empty form. */
  method SwitchTab(session: Session, form: Dashboard, tab: Tab) returns (shown: Dashboard)
    requires session.Valid()
    modifies session
    ensures session.Valid() && session.activeTab == tab
    ensures session.history == old(session.history)
    ensures session.currentAnalysis == old(session.currentAnalysis)
    ensures session.isLoading == old(session.isLoading) && session.error == old(session.error)
    ensures old(session.activeTab) == Analyze && tab == Analyze ==> shown == form
    ensures !(old(session.activeTab) == Analyze && tab == Analyze) ==> fresh(shown) && shown.inputText == ""
  {
    var stays := session.activeTab == Analyze && tab == Analyze;
    session.SetActiveTab(tab);
    if stays {
      shown := form;
    } else {
      shown := new Dashboard();
    }
  }

  /** The history list's select callback, given the form mounted before it:
      the item is displayed in a scanner whose form is new and empty unless
      the scanner tab was already open. */
  method SelectItem(session: Session, form: Dashboard, item: AnalysisResult) returns (shown: Dashboard)
    requires session.Valid()
    requires item in session.history
    modifies session
    ensures session.Valid()
    ensures session.currentAnalysis == Some(item) && session.activeTab == Analyze
    ensures session.history == old(session.history)
    ensures session.isLoading == old(session.isLoading) && session.error == old(session.error)
    ensures old(session.activeTab) == Analyze ==> shown == form
    ensures old(session.activeTab) != Analyze ==> fresh(shown) && shown.inputText == ""
  {
    var stays := session.activeTab == Analyze;
    session.SelectFromHistory(item);
    if stays {
      shown := form;
    } else {
      shown := new Dashboard();
    }
  }

  /** `handleSubmit`: the text handed to `onAnalyze`, if it is called at all.
      It is called exactly when the input has a non-space character, and with
      the input as typed, not trimmed. */
  function Submitted(inputText: string): (sent: Option<string>)
    ensures sent.Some? <==> !IsBlank(inputText)
    ensures sent.Some? ==> sent.value == inputText
  {
    if Trim(inputText) != "" then Some(inputText) else None
  }

  /** The submit button's `disabled` attribute. */
  function SubmitDisabled(isLoading: bool, inputText: string): (disabled: bool)
    ensures disabled <==> isLoading || IsBlank(inputText)
  {
    isLoading || Trim(inputText) == ""
  }

  /** The label of `getCategoryTheme(category)`; its colours and icon are left
      out. */
  function CategoryLabel(category: string): (shown: string)
    ensures shown == "Neutral" <==> Parse(category) !in {Some(HateSpeech), Some(Offensive), Some(Safe)}
  {
    match Parse(category)
    case Some(HateSpeech) => "Danger: Hate Speech"
    case Some(Offensive) => "Warning: Offensive Language"
    case Some(Safe) => "Safe Content"
    case _ => "Neutral"
  }

  /** The three categories the service may return get three different labels,
      none of them the fallback. */
  lemma LabelsSeparateSchema(a: string, b: string)
    requires a in SchemaCategories() && b in SchemaCategories()
    ensures CategoryLabel(a) != "Neutral"
    ensures CategoryLabel(a) == CategoryLabel(b) ==> a == b
  {
  }

  /** The result card: label, confidence in percent, explanation, and the
      flagged terms, present only when there are some. */
  datatype ResultCard = ResultCard(
    caption: string,
    confidencePercent: real,
    explanation: string,
    flaggedTerms: Option<seq<string>>)

  /** What the view shows for its properties and input. */
  datatype View = View(
    submitDisabled: bool,
    errorBanner: Option<string>,
    resultCard: Option<ResultCard>)

  function Render(currentResult: Option<AnalysisResult>, isLoading: bool,
                  error: Option<string>, inputText: string): (v: View)
    ensures v.submitDisabled <==> isLoading || IsBlank(inputText)
    // the banner shows a non-empty error, and only such an error
    ensures v.errorBanner.Some? <==> error.Some? && error.value != ""
    ensures v.errorBanner.Some? ==> v.errorBanner == error
    // the card shows the current result once loading is over
    ensures v.resultCard.Some? <==> currentResult.Some? && !isLoading
    ensures v.resultCard.Some? ==>
      var r := currentResult.value;
      && v.resultCard.value.caption == CategoryLabel(r.category)
      && v.resultCard.value.confidencePercent == r.confidence * 100.0
      && v.resultCard.value.explanation == r.explanation
      && (v.resultCard.value.flaggedTerms.Some? <==> r.flaggedKeywords != [])
      && (v.resultCard.value.flaggedTerms.Some? ==> v.resultCard.value.flaggedTerms.value == r.flaggedKeywords)
  {
    View(
      SubmitDisabled(isLoading, inputText),
      if error.Some? && error.value != "" then error else None,
      if currentResult.Some? && !isLoading then
        var r := currentResult.value;
        Some(ResultCard(
          CategoryLabel(r.category),
          r.confidence * 100.0,
          r.explanation,
          if |r.flaggedKeywords| > 0 then Some(r.flaggedKeywords) else None))
      else None)
  }

  /** An enabled submit button hands the typed text to the analysis, and the
      service's empty-input guard then lets the call through. */
  lemma EnabledSubmitReachesService(inputText: string, call: Call, id: string, now: int)
    requires !SubmitDisabled(false, inputText)
    ensures Submitted(inputText) == Some(inputText)
    ensures AnalyzeText(inputText, call, id, now).Resolved? <==> call.Answered?
  {
  }

  /** The sample sentence can be submitted as it stands. */
  lemma SampleIsSubmittable()
    ensures !IsBlank(SampleText)
    ensures Submitted(SampleText) == Some(SampleText)
  {
    assert |SampleText| == 48 && SampleText[47] == '.';
  }

  /** Load the sample, submit it, and let the service answer with `reply`:
      the scanner then shows the reply's label and no error, and the history
      holds just that result. */
  method ScanSample(reply: Reply, id: string, now: int)
    returns (view: View, history: seq<AnalysisResult>)
    ensures |history| == 1 && history[0].text == SampleText
    ensures history[0].category == reply.category
    ensures view.errorBanner == None && view.resultCard.Some?
    ensures view.resultCard.value.caption == CategoryLabel(reply.category)
    ensures !view.submitDisabled
  {
    var session := new Session();
    var form := new Dashboard();
    form.LoadSample();
    SampleIsSubmittable();
    var sent := Submitted(form.inputText);
    session.HandleAnalyze(sent.value, Answered(reply), id, now);
    view := Render(session.currentAnalysis, session.isLoading, session.error, form.inputText);
    history := session.history;
  }

  /** Text typed in the scanner is gone after a visit to another tab: back on
      the scanner the input is empty and the submit button disabled. */
  method InputLostOnReturn(text: string, elsewhere: Tab) returns (input: string, disabled: bool)
    requires elsewhere != Analyze
    ensures input == "" && disabled
  {
    var session := new Session();
    var form := new Dashboard();
    form.Change(text);
    form := SwitchTab(session, form, elsewhere);
    form := SwitchTab(session, form, Analyze);
    input := form.inputText;
    disabled := SubmitDisabled(session.isLoading, form.inputText);
  }

  /** A scan whose service call throws leaves the history as it was and shows
      a non-empty error banner, whatever the thrown message. */
  method FailedScan(text: string, message: Option<string>)
    returns (view: View, history: seq<AnalysisResult>)
    ensures history == []
    ensures view.errorBanner.Some? && view.errorBanner.value != ""
    ensures view.resultCard == None
  {
    var session := new Session();
    session.HandleAnalyze(text, Threw(message), "", 0);
    view := Render(session.currentAnalysis, session.isLoading, session.error, text);
    history := session.history;
  }
}
