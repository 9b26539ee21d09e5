/**
 * The analysis panel: a request over the most recent readings, the insight it leaves, saving
 * that insight as a report, and the expand/collapse state of the saved reports. The service's
 * answer is an input to `FinishAnalysis`; the report's id and time are parameters of `Save`.
 */
module AIInsights {
  import opened Wrappers
  import opened Types
  import App

  /** What the service call ends in: an answer (its text possibly empty), or a failure. */
  datatype AnalysisResponse = Answered(text: string) | Unreachable

  const WindowSize := 15
  const FallbackText := "分析失败，请稍后再试。"
  const ApologyText := "抱歉，目前无法连接到 AI 服务。"

  /** The readings sent for analysis: the first fifteen of the list, or all of them when there are fewer. */
  function AnalysisWindow(records: seq<BPRecord>): (w: seq<BPRecord>)
    ensures |w| == if |records| < WindowSize then |records| else WindowSize
    ensures w == records[..|w|]
  {
    if |records| < WindowSize then records else records[..WindowSize]
  }

  /**
   * With the store's order, the window holds the most recent readings: none of those left out
   * is newer than any of those sent, and nothing is left out of a list of fifteen or fewer.
   */
  lemma WindowIsMostRecent(records: seq<BPRecord>)
    requires App.SortedNewestFirst(records)
    ensures |records| <= WindowSize ==> AnalysisWindow(records) == records
    ensures forall i, j :: 0 <= i < |AnalysisWindow(records)| <= j < |records| ==>
      App.Time(records[i]) >= App.Time(records[j])
  {
    var w := AnalysisWindow(records);
    if |records| <= WindowSize {
      assert records[..|records|] == records;
    }
  }

  /**
   * The insight a finished request leaves: the answer, or a fallback when the answer is empty,
   * or an apology when the service cannot be reached; it is never empty.
   */
  function InsightText(response: AnalysisResponse): (t: string)
    ensures t != ""
    ensures response.Answered? && response.text != "" ==> t == response.text
    ensures response.Answered? && response.text == "" ==> t == FallbackText
    ensures response.Unreachable? ==> t == ApologyText
  {
    match response
    case Answered(text) => if text == "" then FallbackText else text
    case Unreachable => ApologyText
  }

  /** The expanded report after a click on report `id`: none if it was the expanded one, otherwise that one. */
  function Toggle(expanded: Option<string>, id: string): (next: Option<string>)
    ensures next == Some(id) <==> expanded != Some(id)
    ensures next != Some(id) ==> next == None
  {
    if expanded == Some(id) then None else Some(id)
  }

  /** Clicking the same report twice leaves the expansion where it was, when that was that report or nothing. */
  lemma ToggleTwice(expanded: Option<string>, id: string)
    requires expanded == None || expanded == Some(id)
    ensures Toggle(Toggle(expanded, id), id) == expanded
  {
  }

  class InsightsPanel {
    var insight: Option<string>
    var loading: bool
    var expandedReportId: Option<string>

    constructor ()
      ensures insight == None && !loading && expandedReportId == None
    {
      insight := None;
      loading := false;
      expandedReportId := None;
    }

    /** The analyse button is enabled when no request is running and there are readings. */
    predicate CanAnalyze(records: seq<BPRecord>)
      reads this
      ensures CanAnalyze(records) ==> !loading && AnalysisWindow(records) != []
    {
      !loading && |records| != 0
    }

    /**
     * The start of `analyzeData`: with no readings nothing happens; otherwise a request starts
     * over the analysis window, which it returns.
     */
    method BeginAnalysis(records: seq<BPRecord>) returns (window: Option<seq<BPRecord>>)
      modifies this`loading
      ensures records == [] ==> window == None && loading == old(loading)
      ensures records != [] ==> window == Some(AnalysisWindow(records)) && loading
      ensures records != [] ==> !CanAnalyze(records)
    {
      if |records| == 0 {
        window := None;
        return;
      }
      loading := true;
      window := Some(AnalysisWindow(records));
    }

    /**
     * A click on the analyse button: while it is disabled (a request running, or no readings)
     * nothing happens; otherwise the request starts over the window, and the button is
     * disabled until it ends.
     */
    method ClickAnalyze(records: seq<BPRecord>) returns (window: Option<seq<BPRecord>>)
      modifies this`loading
      ensures window.Some? <==> old(CanAnalyze(records))
      ensures window.None? ==> loading == old(loading)
      ensures window.Some? ==> window.value == AnalysisWindow(records) && loading && !CanAnalyze(records)
    {
      if CanAnalyze(records) {
        window := BeginAnalysis(records);
      } else {
        window := None;
      }
    }

    /** The end of `analyzeData`: the insight is set from the answer and the request is over. */
    method FinishAnalysis(response: AnalysisResponse)
      requires loading
      modifies this`insight, this`loading
      ensures insight == Some(InsightText(response)) && !loading
    {
      insight := Some(InsightText(response));
      loading := false;
    }

    /**
     * `handleSave`: without an insight (none, or empty text) nothing happens; otherwise a report
     * of the insight and the full list's length is returned and the insight is cleared.
     */
    method Save(records: seq<BPRecord>, id: string, now: string) returns (report: Option<AIReport>)
      modifies this`insight
      ensures old(insight) == None || old(insight) == Some("") ==> report == None && insight == old(insight)
      ensures old(insight).Some? && old(insight).value != "" ==>
        && report == Some(AIReport(id, now, old(insight).value, |records|))
        && insight == None
    {
      if insight == None || insight.value == "" {
        report := None;
        return;
      }
      report := Some(AIReport(id, now, insight.value, |records|));
      insight := None;
    }

    /** A click on a saved report's header. */
    method ToggleExpanded(id: string)
      modifies this`expandedReportId
      ensures expandedReportId == Toggle(old(expandedReportId), id)
    {
      expandedReportId := Toggle(expandedReportId, id);
    }
  }

  /**
   * A failed request still leaves a saveable insight: saving it gives a report whose content is
   * the apology and whose count is the full list's length, not the window's.
   */
  method FailureIsSaved(records: seq<BPRecord>, id: string, now: string) returns (report: Option<AIReport>)
    requires records != []
    ensures report == Some(AIReport(id, now, ApologyText, |records|))
  {
    var panel := new InsightsPanel();
    var window := panel.BeginAnalysis(records);
    panel.FinishAnalysis(Unreachable);
    report := panel.Save(records, id, now);
  }

  /**
   * Any finished request can be saved, and the report counts every reading even when only
   * fifteen were sent; saving twice in a row saves once.
   */
  method AnalyzeThenSave(records: seq<BPRecord>, response: AnalysisResponse, id: string, now: string)
    returns (report: Option<AIReport>, again: Option<AIReport>)
    requires records != []
    ensures report.Some? && report.value.content == InsightText(response)
    ensures report.value.recordCount == |records|
    ensures |records| > WindowSize ==> report.value.recordCount > |AnalysisWindow(records)|
    ensures again == None
  {
    var panel := new InsightsPanel();
    var window := panel.BeginAnalysis(records);
    panel.FinishAnalysis(response);
    report := panel.Save(records, id, now);
    again := panel.Save(records, id, now);
  }

  /**
   * One request at a time: a second click on the analyse button while the first request is
   * running sends nothing; once it has finished, a click starts a new request.
   */
  method SecondAnalyzeClickIgnored(records: seq<BPRecord>, response: AnalysisResponse)
    returns (first: Option<seq<BPRecord>>, second: Option<seq<BPRecord>>, third: Option<seq<BPRecord>>)
    requires records != []
    ensures first == Some(AnalysisWindow(records)) && second == None && third == first
  {
    var panel := new InsightsPanel();
    first := panel.ClickAnalyze(records);
    second := panel.ClickAnalyze(records);
    panel.FinishAnalysis(response);
    third := panel.ClickAnalyze(records);
  }

  /** With no readings no request starts. */
  method NoRecordsNoRequest() returns (window: Option<seq<BPRecord>>, loading: bool)
    ensures window == None && !loading
  {
    var panel := new InsightsPanel();
    window := panel.BeginAnalysis([]);
    loading := panel.loading;
  }
}
