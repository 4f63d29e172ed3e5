/**
 * The verifier home page (client/src/components/VerifierHomepage.jsx): a mock verification
 * that scores the selected file at random and prepends the result to the history. Its bands
 * are strict at 0.3 and 0.7. The random score, the clock and the timer are parameters.
 */
module VerifierHomepage {
  import opened Wrappers
  import opened DocProcess
  import AnalysisDialog

  /** The band of a score here: 0 verified, 1 pending, 2 suspicious. */
  function Band(score: real): (b: nat)
    ensures b <= 2
    ensures b == 0 <==> score < 0.3
    ensures b == 1 <==> 0.3 <= score < 0.7
    ensures b == 2 <==> 0.7 <= score
  {
    if score < 0.3 then 0 else if score < 0.7 then 1 else 2
  }

  const Statuses := ["verified", "pending", "suspicious"]
  const Results := ["Document appears authentic", "Requires manual review", "Potential alterations detected"]
  const BarColors := ["bg-green-500", "bg-yellow-500", "bg-red-500"]
  const StatusColors := ["bg-green-100 text-green-800", "bg-yellow-100 text-yellow-800", "bg-red-100 text-red-800"]

  function StatusFor(score: real): string {
    if score < 0.3 then "verified" else if score < 0.7 then "pending" else "suspicious"
  }

  function ResultFor(score: real): string {
    if score < 0.3 then "Document appears authentic"
    else if score < 0.7 then "Requires manual review"
    else "Potential alterations detected"
  }

  function BarColor(score: real): string {
    if score < 0.3 then "bg-green-500" else if score < 0.7 then "bg-yellow-500" else "bg-red-500"
  }

  /** getStatusColor: a class for each of the three statuses, gray for anything else. */
  function StatusColor(status: string): (c: string)
    ensures c == "bg-gray-100 text-gray-800" <==> status !in {"verified", "pending", "suspicious"}
  {
    if status == "verified" then "bg-green-100 text-green-800"
    else if status == "pending" then "bg-yellow-100 text-yellow-800"
    else if status == "suspicious" then "bg-red-100 text-red-800"
    else "bg-gray-100 text-gray-800"
  }

  /** Status, result text, bar colour and status colour of a score all name the same band. */
  lemma BandsAgree(score: real)
    ensures StatusFor(score) == Statuses[Band(score)]
    ensures ResultFor(score) == Results[Band(score)]
    ensures BarColor(score) == BarColors[Band(score)]
    ensures StatusColor(StatusFor(score)) == StatusColors[Band(score)]
  {
  }

  /** The bands are those of the server's verdict: verified, pending and suspicious match its three verdicts. */
  lemma BandsMatchServerVerdict(score: real)
    ensures Band(score) == VerdictRank(GetVerdict(score))
  {
  }

  /** The dialog's bands are not these: a score of 0.25 is "verified" here and "Medium Risk" there. */
  lemma BandsDisagreeWithDialog()
    ensures StatusFor(0.25) == "verified" && AnalysisDialog.RiskLabel(0.25) == "Medium Risk"
    ensures StatusFor(0.75) == "suspicious" && AnalysisDialog.RiskLabel(0.75) == "High Risk"
  {
  }

  /** One history entry. */
  datatype Entry = Entry(id: int, name: string, uploadDate: string, suspicionScore: real, status: string, result: string)

  /** The entry the mock verification builds for a score. */
  function EntryFor(id: int, name: string, date: string, score: real): (e: Entry)
    ensures e.status == Statuses[Band(score)] && e.result == Results[Band(score)]
    ensures e.name == name && e.suspicionScore == score
  {
    Entry(id, name, date, score, StatusFor(score), ResultFor(score))
  }

  /** An entry whose status and result agree with its score's band. */
  predicate Consistent(e: Entry) {
    e.status == StatusFor(e.suspicionScore) && e.result == ResultFor(e.suspicionScore)
  }

  const SampleHistory := [
    Entry(1, "University_Degree.pdf", "2025-01-15", 0.2, "verified", "Document appears authentic"),
    Entry(2, "Professional_License.jpg", "2025-01-14", 0.7, "suspicious", "Potential alterations detected")
  ]

  /** The selected file, reduced to its name. */
  datatype SelectedFile = SelectedFile(name: string)

  class Page {
    var selectedFile: Option<SelectedFile>
    var isVerifying: bool
    var verifiedDocs: seq<Entry>

    constructor ()
      ensures selectedFile.None? && !isVerifying && verifiedDocs == SampleHistory
    {
      selectedFile, isVerifying, verifiedDocs := None, false, SampleHistory;
    }

    method SelectFile(file: Option<SelectedFile>)
      modifies this`selectedFile
      ensures selectedFile == file
    {
      selectedFile := file;
    }

    /**
     * handleVerify, with the timer's callback run to completion: without a file nothing
     * changes; otherwise the scored entry goes first, the history grows by one with the
     * earlier entries in order, and the form resets.
     */
    method HandleVerify(score: real, id: int, date: string)
      requires 0.0 <= score < 1.0
      modifies this
      ensures old(selectedFile).None? ==>
        selectedFile == old(selectedFile) && isVerifying == old(isVerifying) && verifiedDocs == old(verifiedDocs)
      ensures old(selectedFile).Some? ==>
        && verifiedDocs == [EntryFor(id, old(selectedFile).value.name, date, score)] + old(verifiedDocs)
        && |verifiedDocs| == |old(verifiedDocs)| + 1
        && verifiedDocs[1..] == old(verifiedDocs)
        && selectedFile.None? && !isVerifying
    {
      if selectedFile.None? {
        return;
      }
      isVerifying := true;
      var entry := EntryFor(id, selectedFile.value.name, date, score);
      verifiedDocs := [entry] + verifiedDocs;
      selectedFile := None;
      isVerifying := false;
    }
  }

  /** The sample entries agree with the bands, and every verification keeps that so. */
  lemma {:induction false} HistoryStaysConsistent(history: seq<Entry>, id: int, name: string, date: string, score: real)
    requires forall k :: 0 <= k < |history| ==> Consistent(history[k])
    ensures forall k :: 0 <= k < |SampleHistory| ==> Consistent(SampleHistory[k])
    ensures forall k :: 0 <= k < |history| + 1 ==> Consistent(([EntryFor(id, name, date, score)] + history)[k])
  {
    forall k | 0 <= k < |history| + 1
      ensures Consistent(([EntryFor(id, name, date, score)] + history)[k])
    {
      if k > 0 {
        assert ([EntryFor(id, name, date, score)] + history)[k] == history[k - 1];
      }
    }
  }
}
