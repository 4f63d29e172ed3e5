/**
 * The analysis dialog (client/src/components/AnalysisDialog.jsx): four risk bands with
 * inclusive upper bounds 0.2, 0.5 and 0.8 that colour, tint, mark and label the suspicion
 * score, a status icon, and the fetch that fills the dialog's state.
 */
module AnalysisDialog {
  import opened Wrappers
  import opened Text
  import opened BrowserStorage
  import DocProcess
  import VerifierRoutes

  /** The band of a score: 0 low, 1 medium, 2 high, 3 very high. */
  function RiskBand(score: real): (b: nat)
    ensures b <= 3
    ensures b == 0 <==> score <= 0.2
    ensures b == 1 <==> 0.2 < score <= 0.5
    ensures b == 2 <==> 0.5 < score <= 0.8
    ensures b == 3 <==> 0.8 < score
  {
    if score <= 0.2 then 0 else if score <= 0.5 then 1 else if score <= 0.8 then 2 else 3
  }

  const TextColors := ["text-green-600", "text-yellow-600", "text-orange-600", "text-red-600"]
  const Backgrounds := ["bg-green-100", "bg-yellow-100", "bg-orange-100", "bg-red-100"]
  const Markers := ["🟢", "🟡", "🟠", "🔴"]
  const Labels := ["Low Risk", "Medium Risk", "High Risk", "Very High Risk"]

  function SuspicionColor(score: real): string {
    if score <= 0.2 then "text-green-600"
    else if score <= 0.5 then "text-yellow-600"
    else if score <= 0.8 then "text-orange-600"
    else "text-red-600"
  }

  function SuspicionBg(score: real): string {
    if score <= 0.2 then "bg-green-100"
    else if score <= 0.5 then "bg-yellow-100"
    else if score <= 0.8 then "bg-orange-100"
    else "bg-red-100"
  }

  function RiskMarker(score: real): string {
    if score <= 0.2 then "🟢" else if score <= 0.5 then "🟡" else if score <= 0.8 then "🟠" else "🔴"
  }

  function RiskLabel(score: real): string {
    if score <= 0.2 then "Low Risk"
    else if score <= 0.5 then "Medium Risk"
    else if score <= 0.8 then "High Risk"
    else "Very High Risk"
  }

  /** Text colour, background, marker and label always name the same band. */
  lemma PresentationAgrees(score: real)
    ensures SuspicionColor(score) == TextColors[RiskBand(score)]
    ensures SuspicionBg(score) == Backgrounds[RiskBand(score)]
    ensures RiskMarker(score) == Markers[RiskBand(score)]
    ensures RiskLabel(score) == Labels[RiskBand(score)]
  {
  }

  /** A higher score never falls in a lower band. */
  lemma RiskBandMonotone(a: real, b: real)
    requires a <= b
    ensures RiskBand(a) <= RiskBand(b)
  {
  }

  /** The bounds are inclusive: 0.2, 0.5 and 0.8 belong to the lower band. */
  lemma BoundaryScores()
    ensures RiskLabel(0.0) == "Low Risk" && RiskLabel(0.2) == "Low Risk"
    ensures RiskLabel(0.2001) == "Medium Risk" && RiskLabel(0.5) == "Medium Risk"
    ensures RiskLabel(0.8) == "High Risk" && RiskLabel(1.0) == "Very High Risk"
  {
  }

  /** The status icon: three known statuses have their own icon, every other status ❓. */
  function StatusIcon(status: string): (icon: string)
    ensures icon == "❓" <==> status !in {"verified", "suspicious", "rejected"}
    ensures status == "verified" ==> icon == "✅"
    ensures status == "suspicious" ==> icon == "⚠️"
    ensures status == "rejected" ==> icon == "❌"
  {
    if status == "verified" then "✅"
    else if status == "suspicious" then "⚠️"
    else if status == "rejected" then "❌"
    else "❓"
  }

  /** Of the statuses the verifier upload stores, only "pending_review" shows ❓. */
  lemma StoredStatusIcons(o: VerifierRoutes.HashOutcome, analysis: Option<DocProcess.ProcessResult>)
    requires !o.HashMatched? ==> analysis.Some?
    ensures var status := VerifierRoutes.Decide(o, analysis).status;
      StatusIcon(status) == "❓" <==> status == "pending_review"
  {
  }

  /** The effect: a fetch runs only when the dialog is open and has a document id. */
  predicate ShouldFetch(isOpen: bool, documentId: Option<string>) {
    isOpen && Truthy(documentId)
  }

  /** What the analysis request gave the dialog: a thrown error's message ("" for none), or a reply. */
  datatype AnalysisReply = FetchThrew(message: string) | FetchReplied(analysis: Option<VerifierRoutes.AnalysisView>)

  /** The reply the dialog sees from the server's analysis endpoint; an HTTP error becomes a throw. */
  function ServerReply(r: VerifierRoutes.AnalysisResponse): (reply: AnalysisReply)
    ensures r.AnalysisFound? ==> reply == FetchReplied(Some(r.analysis))
    ensures r.AnalysisError? ==> reply.FetchThrew? && reply.message != ""
  {
    match r
    case AnalysisError(code, _) => FetchThrew("HTTP error! status: " + NatToString(code))
    case AnalysisFound(view) => FetchReplied(Some(view))
  }

  /** The risk panel the open dialog shows for a loaded analysis. */
  datatype RiskPanel = RiskPanel(background: string, marker: string, riskLabel: string, icon: string)

  class Dialog {
    var analysis: Option<VerifierRoutes.AnalysisView>
    var loading: bool
    var error: Option<string>

    constructor ()
      ensures analysis.None? && !loading && error.None?
    {
      analysis, loading, error := None, false, None;
    }

    /**
     * fetchAnalysis: a reply with an analysis sets it and clears the error; otherwise the
     * error is set and the previous analysis stays. Loading ends false in every case.
     */
    method FetchAnalysis(reply: AnalysisReply)
      modifies this
      ensures !loading
      ensures reply.FetchReplied? && reply.analysis.Some? ==> analysis == reply.analysis && error.None?
      ensures reply.FetchReplied? && reply.analysis.None? ==>
        analysis == old(analysis) && error == Some("No analysis data received")
      ensures reply.FetchThrew? ==>
        analysis == old(analysis) && error == Some(if reply.message != "" then reply.message else "Failed to load analysis")
    {
      loading := true;
      error := None;
      if reply.FetchThrew? {
        error := Some(if reply.message != "" then reply.message else "Failed to load analysis");
      } else if reply.analysis.Some? {
        analysis := reply.analysis;
      } else {
        error := Some("No analysis data received");
      }
      loading := false;
    }

    /** The effect on `isOpen` and `documentId`: fetchAnalysis runs only when ShouldFetch holds. */
    method OnOpenOrDocumentChange(isOpen: bool, documentId: Option<string>, reply: AnalysisReply)
      modifies this
      ensures !ShouldFetch(isOpen, documentId) ==> unchanged(this)
      ensures ShouldFetch(isOpen, documentId) ==> !loading
      ensures ShouldFetch(isOpen, documentId) && reply.FetchReplied? && reply.analysis.Some? ==>
        analysis == reply.analysis && error.None?
      ensures ShouldFetch(isOpen, documentId) && reply.FetchReplied? && reply.analysis.None? ==>
        analysis == old(analysis) && error == Some("No analysis data received")
      ensures ShouldFetch(isOpen, documentId) && reply.FetchThrew? ==>
        analysis == old(analysis) && error == Some(if reply.message != "" then reply.message else "Failed to load analysis")
    {
      if ShouldFetch(isOpen, documentId) {
        FetchAnalysis(reply);
      }
    }

    /** The rendered risk panel: nothing while closed, and nothing before an analysis is loaded. */
    function Panel(isOpen: bool): (p: Option<RiskPanel>)
      reads this
      ensures !isOpen ==> p.None?
      ensures p.Some? <==> isOpen && analysis.Some?
      ensures p.Some? ==> p.value.riskLabel == Labels[RiskBand(analysis.value.suspicionScore)]
      ensures p.Some? ==> p.value.background == Backgrounds[RiskBand(analysis.value.suspicionScore)]
    {
      if !isOpen || analysis.None? then None
      else
        var score := analysis.value.suspicionScore;
        Some(RiskPanel(SuspicionBg(score), RiskMarker(score), RiskLabel(score), StatusIcon(analysis.value.status)))
    }
  }
}
