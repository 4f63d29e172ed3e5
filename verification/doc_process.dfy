/**
 * The back end's document scoring (server/services/doc_proccess.py): an image-quality score
 * and a text-pattern score, each built by adding fixed weights for the issues found, a
 * weighted combination of the two, a three-band verdict and an ordered explanation.
 *
 * The image metrics (Laplacian variance, mean, standard deviation) and the regular-expression
 * matches come from libraries and are inputs here; everything computed from them is exact,
 * with scores as `real`.
 */
module DocProcess {
  import opened Wrappers
  import opened Text

  /** What the image reader and the metric computations produced for one file. */
  datatype ImageInput =
    | Unreadable                         // the reader returned no image
    | MetricsFault(message: string)      // an exception while computing the metrics
    | Metrics(blur: real, brightness: real, contrast: real)

  datatype QualityAnalysis =
    | QualityError(error: string, qualityScore: real)
    | Quality(blur: real, brightness: real, contrast: real, qualityScore: real,
              blurry: bool, poorLighting: bool, lowContrast: bool)

  /** The outcome of the four regular-expression searches over the OCR text. */
  datatype PatternFacts = PatternFacts(capitalRun: bool, cardNumber: bool, symbolRun: bool, datesFound: nat)

  datatype TextAnalysis =
    | TextError(error: string, textScore: real)
    | TextFindings(keywordMatches: nat, suspiciousPatterns: nat, datesFound: nat, textScore: real,
                   missingKeywords: bool, suspiciousText: bool, noDates: bool)

  /** An exception that escapes the guarded analyses, by the handler that catches it. */
  datatype Fault =
    | NoFault
    | ScoringFault(message: string)      // caught in calculate_suspicion_score
    | PipelineFault(message: string)     // caught in process_document

  datatype ScoreReport = ScoreReport(suspicionScore: real, verdict: string, explanation: string,
                                     quality: QualityAnalysis, text: TextAnalysis)

  datatype ProcessResult = ProcessResult(success: bool, suspicionScore: real, verdict: string,
                                         explanation: Option<string>, report: Option<ScoreReport>)

  /** The weight an issue adds to a score when it is present. */
  function Weight(present: bool, w: real): real {
    if present then w else 0.0
  }

  function Min(a: real, b: real): real {
    if a <= b then a else b
  }

  /**
   * What analyze_image_quality reports for an image: an unreadable image 0.8, a failed
   * analysis 0.5; otherwise the three flags with their thresholds and the sum of their weights.
   */
  predicate IsQualityOf(img: ImageInput, q: QualityAnalysis) {
    match img
    case Unreadable => q == QualityError("Could not load image", 0.8)
    case MetricsFault(message) => q == QualityError(message, 0.5)
    case Metrics(blur, brightness, contrast) =>
      && q.Quality?
      && q.blur == blur && q.brightness == brightness && q.contrast == contrast
      && q.blurry == (blur < 100.0)
      && q.poorLighting == (brightness < 50.0 || brightness > 200.0)
      && q.lowContrast == (contrast < 30.0)
      && q.qualityScore == Weight(q.blurry, 0.3) + Weight(q.poorLighting, 0.2) + Weight(q.lowContrast, 0.2)
  }

  /**
   * analyze_image_quality: a blurry image adds 0.3, poor lighting (too dark or too bright)
   * 0.2, low contrast 0.2; the sum is capped at 1.0. An unreadable image scores 0.8 and a
   * failed analysis 0.5.
   */
  method AnalyzeImageQuality(img: ImageInput) returns (q: QualityAnalysis)
    ensures IsQualityOf(img, q)
    ensures 0.0 <= q.qualityScore <= 0.8
    ensures q.Quality? ==> q.qualityScore <= 0.7
  {
    match img
    case Unreadable =>
      q := QualityError("Could not load image", 0.8);
    case MetricsFault(message) =>
      q := QualityError(message, 0.5);
    case Metrics(blur, brightness, contrast) =>
      var isBlurry := blur < 100.0;
      var isTooDark := brightness < 50.0;
      var isTooBright := brightness > 200.0;
      var isLowContrast := contrast < 30.0;
      var issues := 0.0;
      if isBlurry { issues := issues + 0.3; }
      if isTooDark || isTooBright { issues := issues + 0.2; }
      if isLowContrast { issues := issues + 0.2; }
      q := Quality(blur, brightness, contrast, Min(issues, 1.0), isBlurry, isTooDark || isTooBright, isLowContrast);
  }

  const CertKeywords: seq<string> :=
    ["certificate", "diploma", "degree", "university", "college",
     "awarded", "completed", "graduated", "issued", "authorized"]

  /** How many of `words` occur in `text`, each counted once. */
  function KeywordCount(words: seq<string>, text: string): (n: nat)
    ensures n <= |words|
  {
    if words == [] then 0
    else KeywordCount(words[..|words| - 1], text) + (if Contains(text, words[|words| - 1]) then 1 else 0)
  }

  /** The generator `sum(1 for word in cert_keywords if word in text_lower)`. */
  method CountKeywords(textLower: string) returns (n: nat)
    ensures n == KeywordCount(CertKeywords, textLower)
    ensures n <= 10
  {
    n := 0;
    for i := 0 to |CertKeywords|
      invariant n == KeywordCount(CertKeywords[..i], textLower)
    {
      assert CertKeywords[..i + 1][..i] == CertKeywords[..i];
      if Contains(textLower, CertKeywords[i]) {
        n := n + 1;
      }
    }
    assert CertKeywords[..|CertKeywords|] == CertKeywords;
  }

  /** `suspicious_matches`: how many of the three suspicious patterns matched. */
  function SuspiciousCount(f: PatternFacts): (n: nat)
    ensures n <= 3
    ensures n == 0 <==> !f.capitalRun && !f.cardNumber && !f.symbolRun
  {
    (if f.capitalRun then 1 else 0) + (if f.cardNumber then 1 else 0) + (if f.symbolRun then 1 else 0)
  }

  /**
   * What analyze_text_patterns reports for a text: "Insufficient text" with 0.8 when the
   * stripped text is shorter than 10 characters; otherwise the keyword count (fewer than two
   * is an issue), the suspicious-pattern count, the dates, and the sum of the issue weights.
   */
  predicate IsTextAnalysisOf(ocrText: string, facts: PatternFacts, t: TextAnalysis) {
    if |Strip(ocrText)| < 10 then t == TextError("Insufficient text", 0.8)
    else
      && t.TextFindings?
      && t.keywordMatches == KeywordCount(CertKeywords, Lower(ocrText))
      && t.missingKeywords == (t.keywordMatches < 2)
      && t.suspiciousPatterns == SuspiciousCount(facts) && t.suspiciousText == (t.suspiciousPatterns > 0)
      && t.datesFound == facts.datesFound && t.noDates == (facts.datesFound == 0)
      && t.textScore == Weight(t.missingKeywords, 0.4) + Weight(t.suspiciousText, 0.3) + Weight(t.noDates, 0.2)
  }

  /**
   * analyze_text_patterns: text whose stripped length is under 10 scores 0.8 and is not
   * analysed further. Otherwise fewer than two keywords add 0.4, any suspicious pattern 0.3
   * and no date 0.2, capped at 1.0.
   */
  method AnalyzeTextPatterns(ocrText: string, facts: PatternFacts) returns (t: TextAnalysis)
    ensures IsTextAnalysisOf(ocrText, facts, t)
    ensures t.TextFindings? ==> t.keywordMatches <= 10
    ensures 0.0 <= t.textScore <= 0.9
  {
    if |Strip(ocrText)| < 10 {
      return TextError("Insufficient text", 0.8);
    }
    var keywordMatches := CountKeywords(Lower(ocrText));
    var hasCertKeywords := keywordMatches >= 2;
    var suspiciousMatches := SuspiciousCount(facts);
    var hasReasonableDates := facts.datesFound > 0;
    var issues := 0.0;
    if !hasCertKeywords { issues := issues + 0.4; }
    if suspiciousMatches > 0 { issues := issues + 0.3; }
    if !hasReasonableDates { issues := issues + 0.2; }
    t := TextFindings(keywordMatches, suspiciousMatches, facts.datesFound, Min(issues, 1.0),
                      !hasCertKeywords, suspiciousMatches > 0, !hasReasonableDates);
  }

  /** The weighting of calculate_suspicion_score: 40% image quality, 60% text. */
  function CombineScores(quality: real, text: real): (s: real)
    ensures 0.0 <= quality && 0.0 <= text ==> 0.0 <= s
    ensures quality <= 1.0 && text <= 1.0 ==> s <= 1.0
    ensures s <= 0.4 * quality + 0.6 * text && s >= 0.4 * quality + 0.6 * text
  {
    quality * 0.4 + text * 0.6
  }

  /** get_verdict: three bands with exclusive upper bounds 0.3 and 0.7. */
  function GetVerdict(score: real): (v: string)
    ensures v == "likely_authentic" <==> score < 0.3
    ensures v == "requires_review" <==> 0.3 <= score < 0.7
    ensures v == "highly_suspicious" <==> 0.7 <= score
  {
    if score < 0.3 then "likely_authentic"
    else if score < 0.7 then "requires_review"
    else "highly_suspicious"
  }

  /** The position of a verdict on the scale from authentic to suspicious. */
  function VerdictRank(v: string): nat {
    if v == "likely_authentic" then 0 else if v == "requires_review" then 1 else 2
  }

  /** A higher score never yields a less suspicious verdict. */
  lemma VerdictMonotone(a: real, b: real)
    requires a <= b
    ensures VerdictRank(GetVerdict(a)) <= VerdictRank(GetVerdict(b))
  {
  }

  const BlurryMessage := "Document appears blurry or low quality"
  const LightingMessage := "Poor lighting or contrast detected"
  const KeywordsMessage := "Missing expected certificate keywords"
  const SuspiciousMessage := "Suspicious text patterns detected"
  const DatesMessage := "No valid dates found"
  const AuthenticMessage := "Document appears to be authentic"

  /** Every message get_explanation can list, in the order it lists them. */
  const AllIssueMessages: seq<string> :=
    [BlurryMessage, LightingMessage, KeywordsMessage, SuspiciousMessage, DatesMessage]

  /** The issue flags get_explanation reads; an analysis that failed has no `issues` and raises none. */
  function IssueFlags(q: QualityAnalysis, t: TextAnalysis): (f: seq<bool>)
    ensures |f| == |AllIssueMessages|
  {
    [ q.Quality? && q.blurry, q.Quality? && q.poorLighting,
      t.TextFindings? && t.missingKeywords, t.TextFindings? && t.suspiciousText, t.TextFindings? && t.noDates ]
  }

  /** The one-entry list of `x` when `raised`, else the empty list. */
  function Listed<T>(raised: bool, x: T): seq<T> {
    if raised then [x] else []
  }

  /**
   * The messages whose flags are raised, keeping the order of `messages`: each entry is
   * appended after the ones before it, as get_explanation appends them.
   */
  function Selected<T>(messages: seq<T>, flags: seq<bool>): seq<T>
    requires |messages| == |flags|
  {
    if messages == [] then []
    else Selected(messages[..|messages| - 1], flags[..|flags| - 1]) + Listed(flags[|flags| - 1], messages[|messages| - 1])
  }

  /** The issues listed for an analysis: the raised ones, in the fixed order. */
  function IssueMessages(q: QualityAnalysis, t: TextAnalysis): seq<string> {
    Selected(AllIssueMessages, IssueFlags(q, t))
  }

  /** The fixed order written out: one optional entry per flag. */
  lemma IssueMessagesUnfolded(q: QualityAnalysis, t: TextAnalysis)
    ensures var f := IssueFlags(q, t);
      IssueMessages(q, t) ==
        Listed(f[0], BlurryMessage) + Listed(f[1], LightingMessage) + Listed(f[2], KeywordsMessage)
        + Listed(f[3], SuspiciousMessage) + Listed(f[4], DatesMessage)
  {
    var f := IssueFlags(q, t);
    var m := AllIssueMessages;
    assert m[..1][..0] == [] && f[..1][..0] == [];
    var s1 := Selected(m[..1], f[..1]);
    assert s1 == Selected(m[..1][..0], f[..1][..0]) + Listed(f[0], m[0]);
    assert s1 == [] + Listed(f[0], BlurryMessage);
    assert m[..2][..1] == m[..1] && f[..2][..1] == f[..1];
    var s2 := Selected(m[..2], f[..2]);
    assert s2 == s1 + Listed(f[1], LightingMessage);
    assert m[..3][..2] == m[..2] && f[..3][..2] == f[..2];
    var s3 := Selected(m[..3], f[..3]);
    assert s3 == s2 + Listed(f[2], KeywordsMessage);
    assert m[..4][..3] == m[..3] && f[..4][..3] == f[..3];
    var s4 := Selected(m[..4], f[..4]);
    assert s4 == s3 + Listed(f[3], SuspiciousMessage);
    assert Selected(m, f) == s4 + Listed(f[4], DatesMessage);
  }

  /** `sep.join(parts)`. */
  function Join(parts: seq<string>, sep: string): string {
    if parts == [] then ""
    else if |parts| == 1 then parts[0]
    else parts[0] + sep + Join(parts[1..], sep)
  }

  /**
   * get_explanation: the issues found, appended in the order blurry, lighting, keywords,
   * suspicious text, dates, joined with "; "; with no issue, the authentic message.
   */
  method GetExplanation(q: QualityAnalysis, t: TextAnalysis) returns (r: string)
    ensures IssueMessages(q, t) == [] ==> r == AuthenticMessage
    ensures IssueMessages(q, t) != [] ==> r == Join(IssueMessages(q, t), "; ")
  {
    var f := IssueFlags(q, t);
    var issues: seq<string> := [];
    if q.Quality? && q.blurry { issues := issues + [BlurryMessage]; }
    assert issues == Listed(f[0], BlurryMessage);
    if q.Quality? && q.poorLighting { issues := issues + [LightingMessage]; }
    assert issues == Listed(f[0], BlurryMessage) + Listed(f[1], LightingMessage);
    ghost var upToLighting := issues;
    if t.TextFindings? && t.missingKeywords { issues := issues + [KeywordsMessage]; }
    assert issues == upToLighting + Listed(f[2], KeywordsMessage);
    ghost var upToKeywords := issues;
    if t.TextFindings? && t.suspiciousText { issues := issues + [SuspiciousMessage]; }
    assert issues == upToKeywords + Listed(f[3], SuspiciousMessage);
    ghost var upToSuspicious := issues;
    if t.TextFindings? && t.noDates { issues := issues + [DatesMessage]; }
    assert issues == upToSuspicious + Listed(f[4], DatesMessage);
    IssueMessagesUnfolded(q, t);
    if issues == [] {
      return AuthenticMessage;
    }
    r := Join(issues, "; ");
  }

  /** A message is listed exactly when its flag is raised, at most once, and in the fixed order. */
  lemma {:induction false} SelectedSpec<T>(messages: seq<T>, flags: seq<bool>)
    requires |messages| == |flags|
    ensures |Selected(messages, flags)| <= |messages|
    ensures forall m :: m in Selected(messages, flags) ==>
      exists k :: 0 <= k < |messages| && messages[k] == m && flags[k]
    ensures forall k :: 0 <= k < |messages| && flags[k] ==> messages[k] in Selected(messages, flags)
  {
    if messages != [] {
      var n := |messages| - 1;
      var init, initFlags := messages[..n], flags[..n];
      SelectedSpec(init, initFlags);
      forall m | m in Selected(messages, flags)
        ensures exists k :: 0 <= k < |messages| && messages[k] == m && flags[k]
      {
        if !(flags[n] && m == messages[n]) {
          assert m in Selected(init, initFlags);
          var k :| 0 <= k < n && init[k] == m && initFlags[k];
          assert messages[k] == m && flags[k];
        }
      }
      forall k | 0 <= k < |messages| && flags[k]
        ensures messages[k] in Selected(messages, flags)
      {
        if k < n {
          assert init[k] == messages[k] && initFlags[k];
        }
      }
    }
  }

  /** The explanation lists issue `k` exactly when its flag is raised. */
  lemma ExplanationListsRaisedIssues(q: QualityAnalysis, t: TextAnalysis, k: nat)
    requires k < |AllIssueMessages|
    ensures AllIssueMessages[k] in IssueMessages(q, t) <==> IssueFlags(q, t)[k]
  {
    var f := IssueFlags(q, t);
    SelectedSpec(AllIssueMessages, f);
    if AllIssueMessages[k] in IssueMessages(q, t) {
      var j :| 0 <= j < |AllIssueMessages| && AllIssueMessages[j] == AllIssueMessages[k] && f[j];
      assert j == k;
    }
  }

  /** Low contrast is detected but never explained: the explanation does not depend on it. */
  lemma LowContrastNeverExplained(q: QualityAnalysis, t: TextAnalysis, lowContrast: bool)
    requires q.Quality?
    ensures IssueMessages(q.(lowContrast := lowContrast), t) == IssueMessages(q, t)
  {
  }

  /**
   * What calculate_suspicion_score returns for an image and a text: on an exception 0.5,
   * "error" and a fixed message; otherwise this image's and this text's analyses, their
   * 0.4/0.6 combination, its verdict and the explanation of the raised issues.
   */
  predicate IsReportOf(img: ImageInput, ocrText: string, facts: PatternFacts, fault: Fault, r: ScoreReport) {
    if fault.ScoringFault? then
      r.suspicionScore == 0.5 && r.verdict == "error" && r.explanation == "Could not analyze document properly"
    else
      && IsQualityOf(img, r.quality)
      && IsTextAnalysisOf(ocrText, facts, r.text)
      && r.suspicionScore == CombineScores(r.quality.qualityScore, r.text.textScore)
      && r.verdict == GetVerdict(r.suspicionScore)
      && (IssueMessages(r.quality, r.text) == [] ==> r.explanation == AuthenticMessage)
      && (IssueMessages(r.quality, r.text) != [] ==> r.explanation == Join(IssueMessages(r.quality, r.text), "; "))
  }

  /**
   * What process_document returns: on an exception success false, 0.5 and "error" with no
   * explanation; otherwise the score report of this image and text, passed through.
   */
  predicate IsProcessResultOf(img: ImageInput, ocrText: string, facts: PatternFacts, fault: Fault, r: ProcessResult) {
    if fault.PipelineFault? then r == ProcessResult(false, 0.5, "error", None, None)
    else
      && r.success && r.report.Some?
      && IsReportOf(img, ocrText, facts, fault, r.report.value)
      && r.suspicionScore == r.report.value.suspicionScore && r.verdict == r.report.value.verdict
      && r.explanation == Some(r.report.value.explanation)
  }

  /**
   * calculate_suspicion_score: the 0.4/0.6 combination of the two analyses, its verdict and
   * its explanation; an exception inside it yields 0.5, verdict "error" and a fixed message.
   */
  method CalculateSuspicionScore(img: ImageInput, ocrText: string, facts: PatternFacts, fault: Fault)
    returns (r: ScoreReport)
    ensures IsReportOf(img, ocrText, facts, fault, r)
    ensures 0.0 <= r.suspicionScore <= 0.86
    ensures img.Unreadable? && !fault.ScoringFault? ==> r.suspicionScore >= 0.32
  {
    var quality := AnalyzeImageQuality(img);
    var text := AnalyzeTextPatterns(ocrText, facts);
    if fault.ScoringFault? {
      return ScoreReport(0.5, "error", "Could not analyze document properly", quality, text);
    }
    var finalScore := CombineScores(quality.qualityScore, text.textScore);
    var explanation := GetExplanation(quality, text);
    r := ScoreReport(finalScore, GetVerdict(finalScore), explanation, quality, text);
  }

  /**
   * process_document: the score report, or on an exception success false, suspicion 0.5 and
   * verdict "error" without an explanation.
   */
  method ProcessDocument(img: ImageInput, ocrText: string, facts: PatternFacts, fault: Fault)
    returns (r: ProcessResult)
    ensures IsProcessResultOf(img, ocrText, facts, fault, r)
    ensures 0.0 <= r.suspicionScore <= 0.86
    ensures img.Unreadable? && fault.NoFault? ==> r.suspicionScore >= 0.32
  {
    if fault.PipelineFault? {
      return ProcessResult(false, 0.5, "error", None, None);
    }
    var report := CalculateSuspicionScore(img, ocrText, facts, fault);
    r := ProcessResult(true, report.suspicionScore, report.verdict, Some(report.explanation), Some(report));
  }

  /** The quality analysis of an image is unique. */
  lemma QualityDetermined(img: ImageInput, q1: QualityAnalysis, q2: QualityAnalysis)
    requires IsQualityOf(img, q1) && IsQualityOf(img, q2)
    ensures q1 == q2
  {
  }

  /** The text analysis of a text is unique. */
  lemma TextAnalysisDetermined(ocrText: string, facts: PatternFacts, t1: TextAnalysis, t2: TextAnalysis)
    requires IsTextAnalysisOf(ocrText, facts, t1) && IsTextAnalysisOf(ocrText, facts, t2)
    ensures t1 == t2
  {
  }

  /**
   * process_document's answer for a document is determined by the document: two results
   * that both describe the same image and text agree on everything the handlers read.
   */
  lemma ProcessOutcomeDetermined(img: ImageInput, ocrText: string, facts: PatternFacts, fault: Fault,
                                 r1: ProcessResult, r2: ProcessResult)
    requires IsProcessResultOf(img, ocrText, facts, fault, r1) && IsProcessResultOf(img, ocrText, facts, fault, r2)
    ensures r1.success == r2.success && r1.suspicionScore == r2.suspicionScore
    ensures r1.verdict == r2.verdict && r1.explanation == r2.explanation
  {
    if !fault.PipelineFault? && !fault.ScoringFault? {
      QualityDetermined(img, r1.report.value.quality, r2.report.value.quality);
      TextAnalysisDetermined(ocrText, facts, r1.report.value.text, r2.report.value.text);
    }
  }

  /** An unreadable image alone puts the combined score at 0.32 or above. */
  lemma UnreadableImageScoreFloor(text: real)
    requires 0.0 <= text
    ensures CombineScores(0.8, text) >= 0.32
  {
  }
}
