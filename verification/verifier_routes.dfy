/**
 * The verifier endpoints (server/routes/verifier_routes.py): upload with hash verification
 * first and visual analysis second, the per-verifier listing with its status summary,
 * re-verification of a stored document, and the analysis view the client dialog shows.
 *
 * Cloud storage, the OCR reader, the HMAC hash and the image reader are inputs: the stored
 * URL, the extracted text, the hash (`None` when hashing raised) and the image metrics.
 */
module VerifierRoutes {
  import opened Wrappers
  import opened Text
  import opened DocumentModel
  import opened AccountModel
  import opened DocProcess
  import opened UploadRules
  import opened Store

  /** The three outcomes of the hash check. */
  datatype HashOutcome = HashMatched(existing: Document) | HashNotFound | HashFailed

  /** Hashing failed (or gave an empty hash), or the first stored document with that hash (`find_one`), or none. */
  function ClassifyHash(hash: Option<string>, docs: seq<Document>): (o: HashOutcome)
    ensures o.HashFailed? <==> !Given(hash)
    ensures o.HashMatched? ==> o.existing in docs && o.existing.hash == hash
    ensures o.HashMatched? ==>
      var k := FirstIndex(docs, (d: Document) => d.hash == hash);
      k.Some? && o.existing == docs[k.value]
    ensures o.HashNotFound? ==> forall d :: d in docs ==> d.hash != hash
  {
    if !Given(hash) then HashFailed
    else match FirstIndex(docs, (d: Document) => d.hash == hash)
      case None => HashNotFound
      case Some(k) => HashMatched(docs[k])
  }

  function VerificationStatus(o: HashOutcome): string {
    match o
    case HashMatched(_) => "hash_verified"
    case HashNotFound => "hash_not_found"
    case HashFailed => "new_document"
  }

  datatype Decision = Decision(suspicionScore: real, status: string, verdict: string)

  /**
   * The suspicion score, status and verdict of an upload. A hash match is authentic with
   * score 0.0. An unknown hash adds 0.3 to the analysis score, capped at 0.8, and is pending
   * review below 0.4, else suspicious. When hashing failed the analysis verdict stands and
   * only "likely_authentic" and "requires_review" are pending review.
   */
  function Decide(o: HashOutcome, analysis: Option<ProcessResult>): (d: Decision)
    requires !o.HashMatched? ==> analysis.Some?
    ensures o.HashMatched? ==> d == Decision(0.0, "verified", "authentic")
    ensures o.HashNotFound? ==>
      && d.suspicionScore == Min(0.8, analysis.value.suspicionScore + 0.3)
      && d.suspicionScore <= 0.8
      && d.verdict == "hash_not_verified"
      && (d.status == "pending_review" <==> d.suspicionScore < 0.4)
      && (d.status == "suspicious" <==> d.suspicionScore >= 0.4)
    ensures o.HashFailed? ==>
      && d.suspicionScore == analysis.value.suspicionScore
      && d.verdict == analysis.value.verdict
      && (d.status == "pending_review" <==> analysis.value.verdict in {"likely_authentic", "requires_review"})
      && (d.status == "suspicious" <==> analysis.value.verdict !in {"likely_authentic", "requires_review"})
    ensures d.status == "verified" <==> o.HashMatched?
    ensures d.status in {"verified", "pending_review", "suspicious"}
  {
    match o
    case HashMatched(_) => Decision(0.0, "verified", "authentic")
    case HashNotFound =>
      var score := Min(0.8, analysis.value.suspicionScore + 0.3);
      Decision(score, if score < 0.4 then "pending_review" else "suspicious", "hash_not_verified")
    case HashFailed =>
      var verdict := analysis.value.verdict;
      var status :=
        if verdict == "likely_authentic" then "pending_review"
        else if verdict == "requires_review" then "pending_review"
        else "suspicious";
      Decision(analysis.value.suspicionScore, status, verdict)
  }

  /**
   * An unknown hash is always suspicious once the analysis scores 0.32 or more, which an
   * unreadable image guarantees (the handler gives the image reader the cloud URL).
   */
  lemma UnknownHashWithUnreadableImageIsSuspicious(analysis: ProcessResult)
    requires analysis.suspicionScore >= 0.32
    ensures Decide(HashNotFound, Some(analysis)).status == "suspicious"
    ensures Decide(HashNotFound, Some(analysis)).suspicionScore >= 0.62
  {
  }

  /** Python's `str()` of an id that may be None. */
  function IdText(id: Option<string>): string {
    if id.Some? then id.value else "None"
  }

  function ExplanationFor(o: HashOutcome, analysis: Option<ProcessResult>): string
    requires !o.HashMatched? ==> analysis.Some?
  {
    match o
    case HashMatched(existing) =>
      "✅ AUTHENTIC: Document hash verified in database. Originally issued by issuer ID: " + IdText(existing.issuerId)
    case HashNotFound =>
      "Document hash not found in database. Visual analysis: " + analysis.value.explanation.GetOr("Document analyzed")
    case HashFailed =>
      "Hash verification unavailable. Visual analysis: " + analysis.value.explanation.GetOr("Document analyzed")
  }

  const NotesPrefix := "Document uploaded for verification with suspicion score: "

  /** The image the upload analyses: the cloud URL's for an unknown hash, else the temporary file's. */
  function AnalysedImage(o: HashOutcome, urlImage: ImageInput, fileImage: ImageInput): ImageInput {
    if o.HashNotFound? then urlImage else fileImage
  }

  /**
   * The visual analysis an upload runs: none after a hash match, otherwise process_document
   * on the analysed image.
   */
  predicate AnalysedUpload(o: HashOutcome, urlImage: ImageInput, fileImage: ImageInput, ocrText: string,
                           facts: PatternFacts, fault: Fault, analysis: Option<ProcessResult>) {
    if o.HashMatched? then analysis.None?
    else analysis.Some? && IsProcessResultOf(AnalysedImage(o, urlImage, fileImage), ocrText, facts, fault, analysis.value)
  }

  /** The decision and explanation follow from some visual analysis the upload may run. */
  ghost predicate AssessedAs(o: HashOutcome, urlImage: ImageInput, fileImage: ImageInput, ocrText: string,
                             facts: PatternFacts, fault: Fault, d: Decision, explanation: string) {
    exists analysis :: AnalysedUpload(o, urlImage, fileImage, ocrText, facts, fault, analysis)
      && d == Decide(o, analysis) && explanation == ExplanationFor(o, analysis)
  }

  /**
   * The hash check and, when the hash did not match, the visual analysis: the record's
   * score, status and verdict, and the explanation returned to the client.
   */
  method Assess(docs: seq<Document>, hash: Option<string>, ocrText: string, urlImage: ImageInput,
                fileImage: ImageInput, facts: PatternFacts, fault: Fault)
    returns (o: HashOutcome, analysis: Option<ProcessResult>, d: Decision, explanation: string)
    ensures o == ClassifyHash(hash, docs)
    ensures AnalysedUpload(o, urlImage, fileImage, ocrText, facts, fault, analysis)
    ensures d == Decide(o, analysis) && explanation == ExplanationFor(o, analysis)
    ensures o.HashNotFound? && urlImage.Unreadable? && fault.NoFault? ==> d.status == "suspicious"
  {
    o := ClassifyHash(hash, docs);
    analysis := None;
    if !o.HashMatched? {
      var a := ProcessDocument(AnalysedImage(o, urlImage, fileImage), ocrText, facts, fault);
      analysis := Some(a);
      if o.HashNotFound? && urlImage.Unreadable? && fault.NoFault? {
        UnknownHashWithUnreadableImageIsSuspicious(a);
      }
    }
    d := Decide(o, analysis);
    explanation := ExplanationFor(o, analysis);
  }

  /**
   * The dictionary the upload hands to create_document. `scoreText` is Python's rendering of
   * the score inside the verification note.
   */
  function VerifierDocumentData(verifierId: string, url: string, status: string, score: real, ocrText: string,
                                filename: string, verifier: Account, documentType: Option<string>,
                                scoreText: string, hash: Option<string>): (data: DocumentData)
    ensures data.verifiedBy == Some([verifierId]) && data.issuerId.None?
    ensures data.status == Some(status) && data.aiScore == Some(score) && data.hash == hash
    ensures data.ocrData == Some(Ocr(ocrText))
    ensures data.metaData.Some? && data.metaData.value.verificationStatus.None?
    ensures data.metaData.Some? && data.metaData.value.documentType == Some(documentType.GetOr("unknown"))
  {
    DocumentData(
      Some(url), Some(status), None, Some([verifierId]), Some(Ocr(ocrText)), Some(score),
      Some(MetaData(
        Some(filename), Some("verifier_upload"), Some(documentType.GetOr("unknown")),
        Some(verifier.name.GetOr("")), Some(verifier.institution.GetOr("")),
        Some(NotesPrefix + scoreText), None)),
      hash)
  }

  datatype UploadResponse =
    | UploadError(code: nat, error: string)
    | UploadCreated(
        documentId: string, filename: string, documentUrl: string, hash: Option<string>,
        verificationStatus: string, suspicionScore: real, status: string, verdict: string,
        explanation: string, hashVerified: bool, existingIssuer: Option<string>,
        analysisPreview: string, ocrTextPreview: string, verificationNotes: string)

  /**
   * The 201 answer and the store after a verifier upload `v` that passed every check: the
   * response carries the hash outcome, the decision and explanation of the analysis the upload
   * ran, and text previews; `docs` gained the new record and `verifiers` the pushed id.
   */
  ghost predicate UploadRecorded(resp: UploadResponse, v: Validation, documentType: Option<string>, url: string,
                                 hash: Option<string>, ocrText: string, urlImage: ImageInput, fileImage: ImageInput,
                                 facts: PatternFacts, fault: Fault, scoreText: string, newId: string,
                                 docs0: seq<Document>, verifiers0: seq<Account>,
                                 docs: seq<Document>, verifiers: seq<Account>)
    requires v.Accepted?
  {
    var o := ClassifyHash(hash, docs0);
    && resp.UploadCreated?
    && resp.documentId == newId && resp.filename == v.filename && resp.hash == hash
    && resp.documentUrl == url
    && resp.verificationStatus == VerificationStatus(o)
    && resp.hashVerified == (resp.verificationStatus == "hash_verified")
    && (resp.existingIssuer.None? <==> !o.HashMatched?)
    && (o.HashMatched? ==> resp.existingIssuer == Some(IdText(o.existing.issuerId)))
    && AssessedAs(o, urlImage, fileImage, ocrText, facts, fault,
                  Decision(resp.suspicionScore, resp.status, resp.verdict), resp.explanation)
    && resp.verificationNotes == "Analysis completed: " + resp.explanation
    && resp.analysisPreview == Preview(ocrText, 200)
    && resp.ocrTextPreview == Preview(ocrText, 100)
    && docs == docs0 + [NewDocument(newId, VerifierDocumentData(
         v.actorId, url, resp.status, resp.suspicionScore, ocrText, v.filename, v.actor,
         documentType, scoreText, hash))]
    && verifiers == PushDocument(verifiers0, v.actorId, newId)
  }

  /** insert_one of the new record, then the `$push` of its id onto the verifier's documents. */
  method StoreUpload(db: Mongo, verifierId: string, data: DocumentData, newId: string) returns (docId: string)
    modifies db`documents, db`verifiers
    ensures docId == newId
    ensures db.documents == old(db.documents) + [NewDocument(newId, data)]
    ensures db.verifiers == PushDocument(old(db.verifiers), verifierId, newId)
    ensures db.issuers == old(db.issuers) && db.institutes == old(db.institutes)
  {
    docId := db.CreateDocument(newId, data);
    db.PushVerifierDocument(verifierId, docId);
  }

  /** The upload past every check: hash check, analysis, the new record and the verifier's list. */
  method RecordUpload(db: Mongo, v: Validation, documentType: Option<string>, url: string, hash: Option<string>,
                      ocrText: string, urlImage: ImageInput, fileImage: ImageInput, facts: PatternFacts,
                      fault: Fault, scoreText: string, newId: string)
    returns (resp: UploadResponse)
    requires v.Accepted?
    modifies db`documents, db`verifiers
    ensures UploadRecorded(resp, v, documentType, url, hash, ocrText, urlImage, fileImage, facts, fault, scoreText,
                           newId, old(db.documents), old(db.verifiers), db.documents, db.verifiers)
    ensures db.issuers == old(db.issuers) && db.institutes == old(db.institutes)
  {
    var o, analysis, d, explanation := Assess(db.documents, hash, ocrText, urlImage, fileImage, facts, fault);
    var data := VerifierDocumentData(v.actorId, url, d.status, d.suspicionScore, ocrText, v.filename,
                                     v.actor, documentType, scoreText, hash);
    var docId := StoreUpload(db, v.actorId, data, newId);
    var existingIssuer := if o.HashMatched? then Some(IdText(o.existing.issuerId)) else None;
    resp := UploadCreated(
      docId, v.filename, url, hash, VerificationStatus(o), d.suspicionScore, d.status, d.verdict,
      explanation, VerificationStatus(o) == "hash_verified", existingIssuer,
      Preview(ocrText, 200), Preview(ocrText, 100), "Analysis completed: " + explanation);
    assert AssessedAs(o, urlImage, fileImage, ocrText, facts, fault,
                      Decision(resp.suspicionScore, resp.status, resp.verdict), resp.explanation);
  }

  /**
   * POST /upload for a verifier. Any failed check or an earlier exception leaves the store
   * unchanged; a success inserts one record and pushes its id onto the verifier's list.
   */
  method UploadDocument(db: Mongo, form: UploadForm, cloud: CloudUpload, hash: Option<string>, ocrText: string,
                        urlImage: ImageInput, fileImage: ImageInput, facts: PatternFacts, fault: Fault,
                        scoreText: string, newId: string)
    returns (resp: UploadResponse)
    modifies db
    ensures resp.UploadError? ==> unchanged(db)
    ensures ValidateUpload(VerifierRole, form, old(db.verifiers)).Rejected? ==>
      resp == UploadError(ValidateUpload(VerifierRole, form, old(db.verifiers)).code,
                          ValidateUpload(VerifierRole, form, old(db.verifiers)).error)
    ensures ValidateUpload(VerifierRole, form, old(db.verifiers)).Accepted? && cloud.CloudFailed? ==>
      resp == UploadError(500, "Failed to upload document to cloud storage")
    ensures ValidateUpload(VerifierRole, form, old(db.verifiers)).Accepted? && cloud.CloudStored? ==>
      (IsObjectIdText(form.actorId.value) <==> resp.UploadCreated?)
    ensures ValidateUpload(VerifierRole, form, old(db.verifiers)).Accepted? && cloud.CloudStored?
            && !IsObjectIdText(form.actorId.value) ==>
      resp == UploadError(500, "Failed to upload document")
    ensures resp.UploadCreated? ==>
      var v := ValidateUpload(VerifierRole, form, old(db.verifiers));
      && v.Accepted? && cloud.CloudStored? && IsObjectIdText(v.actorId)
      && UploadRecorded(resp, v, form.documentType, cloud.secureUrl, hash, ocrText, urlImage, fileImage, facts,
                        fault, scoreText, newId, old(db.documents), old(db.verifiers), db.documents, db.verifiers)
      && db.issuers == old(db.issuers) && db.institutes == old(db.institutes)
  {
    var v := ValidateUpload(VerifierRole, form, db.verifiers);
    if v.Rejected? {
      return UploadError(v.code, v.error);
    }
    if cloud.CloudFailed? {
      return UploadError(500, "Failed to upload document to cloud storage");
    }
    if !IsObjectIdText(v.actorId) {
      // `ObjectId(verifier_id)` while building the record raises after the analysis, which
      // changes nothing stored; the handler answers 500
      return UploadError(500, "Failed to upload document");
    }
    resp := RecordUpload(db, v, form.documentType, cloud.secureUrl, hash, ocrText, urlImage, fileImage, facts,
                         fault, scoreText, newId);
  }

  /** One entry of the verifier listing. */
  datatype ListedDocument = ListedDocument(
    documentId: string, filename: string, status: string, documentType: string,
    ocrTextPreview: string, suspicionScore: real, verificationMethod: string)

  /** The formatting of one stored document, with the listing's defaults for absent metadata. */
  function FormatDocument(d: Document): (e: ListedDocument)
    ensures e.documentId == d.id && e.status == d.status && e.suspicionScore == d.aiScore
    ensures e.ocrTextPreview == ListPreview(ExtractedText(d.ocrData), 100)
    ensures d.metaData.originalFilename.None? ==> e.filename == "Unknown"
    ensures d.metaData.documentType.None? ==> e.documentType == "unknown"
  {
    ListedDocument(
      d.id,
      d.metaData.originalFilename.GetOr("Unknown"),
      d.status,
      d.metaData.documentType.GetOr("unknown"),
      ListPreview(ExtractedText(d.ocrData), 100),
      d.aiScore,
      d.metaData.uploadMethod.GetOr("unknown"))
  }

  /** The loop that fills `formatted_docs`: one entry per document, in query order. */
  method FormatDocuments(docs: seq<Document>) returns (formatted: seq<ListedDocument>)
    ensures |formatted| == |docs|
    ensures forall k :: 0 <= k < |docs| ==> formatted[k] == FormatDocument(docs[k])
    ensures forall k :: 0 <= k < |docs| ==> formatted[k].status == docs[k].status
  {
    formatted := [];
    for i := 0 to |docs|
      invariant |formatted| == i
      invariant forall k :: 0 <= k < i ==> formatted[k] == FormatDocument(docs[k])
    {
      formatted := formatted + [FormatDocument(docs[i])];
    }
  }

  /** `len([d for d in formatted_docs if d["status"] == status])`. */
  function CountStatus(entries: seq<ListedDocument>, status: string): (n: nat)
    ensures n <= |entries|
  {
    if entries == [] then 0
    else (if entries[0].status == status then 1 else 0) + CountStatus(entries[1..], status)
  }

  /** The three summary counts never add up to more than the listing holds. */
  lemma {:induction false} SummaryWithinTotal(entries: seq<ListedDocument>)
    ensures CountStatus(entries, "verified") + CountStatus(entries, "pending_review")
            + CountStatus(entries, "suspicious") <= |entries|
  {
    if entries != [] {
      SummaryWithinTotal(entries[1..]);
    }
  }

  datatype StatusSummary = StatusSummary(verified: nat, pendingReview: nat, suspicious: nat)

  datatype ListResponse =
    | ListError(code: nat, error: string)
    | Listing(verifierId: string, verifierName: string, institution: string, totalDocuments: nat,
              summary: StatusSummary, documents: seq<ListedDocument>)

  /** The documents whose `verified_by` list holds the verifier, in store order. */
  function VerifiedBy(docs: seq<Document>, verifierId: string): (r: seq<Document>)
    ensures |r| <= |docs|
    ensures forall d :: d in r <==> d in docs && verifierId in d.verifiedBy
  {
    if docs == [] then []
    else (if verifierId in docs[0].verifiedBy then [docs[0]] else []) + VerifiedBy(docs[1..], verifierId)
  }

  /**
   * GET /documents/<verifier_id>: 404 for an unknown verifier, else one entry per document
   * the verifier is recorded on, in order, with per-status counts.
   */
  method GetVerifierDocuments(db: Mongo, verifierId: string) returns (resp: ListResponse)
    ensures FindAccountById(db.verifiers, verifierId).None? ==> resp == ListError(404, "Verifier not found")
    ensures FindAccountById(db.verifiers, verifierId).Some? && !IsObjectIdText(verifierId) ==>
      resp == ListError(500, "Failed to retrieve documents")
    ensures FindAccountById(db.verifiers, verifierId).Some? && IsObjectIdText(verifierId) ==>
      && resp.Listing? && resp.verifierId == verifierId
      && resp.verifierName == FindAccountById(db.verifiers, verifierId).value.name.GetOr("")
      && resp.institution == FindAccountById(db.verifiers, verifierId).value.institution.GetOr("")
    ensures resp.Listing? ==>
      var docs := VerifiedBy(db.documents, verifierId);
      && resp.totalDocuments == |resp.documents| == |docs|
      && (forall k :: 0 <= k < |docs| ==> resp.documents[k] == FormatDocument(docs[k]))
      && resp.summary.verified == CountStatus(resp.documents, "verified")
      && resp.summary.pendingReview == CountStatus(resp.documents, "pending_review")
      && resp.summary.suspicious == CountStatus(resp.documents, "suspicious")
      && resp.summary.verified + resp.summary.pendingReview + resp.summary.suspicious <= resp.totalDocuments
  {
    var verifier := FindAccountById(db.verifiers, verifierId);
    if verifier.None? {
      return ListError(404, "Verifier not found");
    }
    if !IsObjectIdText(verifierId) {
      return ListError(500, "Failed to retrieve documents");
    }
    var formatted := FormatDocuments(VerifiedBy(db.documents, verifierId));
    SummaryWithinTotal(formatted);
    var summary := StatusSummary(
      CountStatus(formatted, "verified"), CountStatus(formatted, "pending_review"), CountStatus(formatted, "suspicious"));
    resp := Listing(verifierId, verifier.value.name.GetOr(""), verifier.value.institution.GetOr(""),
                    |formatted|, summary, formatted);
  }

  /** Records created through create_document are never found by the listing's `verified_by` query. */
  lemma CreatedRecordsNotListed(id: string, data: DocumentData, verifierId: string)
    ensures VerifiedBy([NewDocument(id, data)], verifierId) == []
  {
  }

  /** The analysis view of one stored document. */
  datatype AnalysisView = AnalysisView(
    documentId: string, filename: string, filePath: Option<string>, verificationStatus: string,
    hashVerified: bool, suspicionScore: real, status: string, explanation: string, ocrData: string,
    verifiedByCount: nat, existingIssuer: Option<string>, hash: Option<string>)

  /**
   * The fields of get_document_analysis: "hash_verified" is derived from the status alone,
   * the verifier list is reported by its length, the issuer only when there is one.
   */
  function AnalysisOf(documentId: string, d: Document): (v: AnalysisView)
    ensures v.hashVerified <==> d.status == "verified"
    ensures v.verifiedByCount == |d.verifiedBy|
    ensures v.existingIssuer.None? <==> !Given(d.issuerId)
    ensures v.existingIssuer.Some? ==> v.existingIssuer == d.issuerId
    ensures v.verificationStatus == d.metaData.verificationStatus.GetOr("unknown")
    ensures v.explanation == d.metaData.verificationNotes.GetOr("No analysis available")
    ensures v.suspicionScore == d.aiScore && v.status == d.status && v.ocrData == ExtractedText(d.ocrData)
  {
    AnalysisView(
      documentId,
      d.metaData.originalFilename.GetOr("Unknown"),
      d.source,
      d.metaData.verificationStatus.GetOr("unknown"),
      d.status == "verified",
      d.aiScore,
      d.status,
      d.metaData.verificationNotes.GetOr("No analysis available"),
      ExtractedText(d.ocrData),
      |d.verifiedBy|,
      if Given(d.issuerId) then d.issuerId else None,
      d.hash)
  }

  datatype AnalysisResponse = AnalysisError(code: nat, error: string) | AnalysisFound(analysis: AnalysisView)

  /** GET /analysis/<document_id>: 500 for a malformed id, 404 for an unknown one, else the view. */
  function GetDocumentAnalysis(db: Mongo, documentId: string): (r: AnalysisResponse)
    reads db
    ensures !IsObjectIdText(documentId) ==> r == AnalysisError(500, "Failed to get analysis")
    ensures IsObjectIdText(documentId) && FindDocumentById(db.documents, documentId).None? ==>
      r == AnalysisError(404, "Document not found")
    ensures IsObjectIdText(documentId) && FindDocumentById(db.documents, documentId).Some? ==>
      r == AnalysisFound(AnalysisOf(documentId, FindDocumentById(db.documents, documentId).value))
    ensures r.AnalysisFound? ==>
      exists d :: d in db.documents && d.id == documentId && r.analysis == AnalysisOf(documentId, d)
  {
    if !IsObjectIdText(documentId) then AnalysisError(500, "Failed to get analysis")
    else match FirstIndex(db.documents, (d: Document) => d.id == documentId)
      case None => AnalysisError(404, "Document not found")
      case Some(k) => AnalysisFound(AnalysisOf(documentId, db.documents[k]))
  }

  /**
   * A record stored by the verifier upload reports "unknown" as its verification status,
   * since the upload never writes that key, and no verifier.
   */
  lemma UploadedRecordAnalysis(verifierId: string, url: string, status: string, score: real, ocrText: string,
                               filename: string, verifier: Account, documentType: Option<string>,
                               scoreText: string, hash: Option<string>, id: string)
    ensures var d := NewDocument(id, VerifierDocumentData(verifierId, url, status, score, ocrText, filename,
                                                           verifier, documentType, scoreText, hash));
      && AnalysisOf(id, d).verificationStatus == "unknown"
      && AnalysisOf(id, d).verifiedByCount == 0
      && AnalysisOf(id, d).existingIssuer.None?
      && (AnalysisOf(id, d).hashVerified <==> status == "verified")
  {
  }

  /**
   * The new score of a re-verified document: process_document's score for its stored text
   * when it has a source and a text, else the fallback 0.5.
   */
  predicate RescoredAs(document: Document, img: ImageInput, facts: PatternFacts, fault: Fault,
                       analysis: Option<ProcessResult>, score: real) {
    if Given(document.source) && ExtractedText(document.ocrData) != "" then
      && analysis.Some?
      && IsProcessResultOf(img, ExtractedText(document.ocrData), facts, fault, analysis.value)
      && score == analysis.value.suspicionScore
    else analysis.None? && score == 0.5
  }

  /** The re-scoring step of verify_document_by_id, with the score the handler reads from its result. */
  method Rescore(document: Document, img: ImageInput, facts: PatternFacts, fault: Fault)
    returns (analysis: Option<ProcessResult>, score: real)
    ensures RescoredAs(document, img, facts, fault, analysis, score)
    ensures 0.0 <= score <= 0.86
  {
    analysis, score := None, 0.5;
    if Given(document.source) && ExtractedText(document.ocrData) != "" {
      var a := ProcessDocument(img, ExtractedText(document.ocrData), facts, fault);
      analysis, score := Some(a), a.suspicionScore;
    }
  }

  datatype ReverifyResponse =
    | ReverifyError(code: nat, error: string)
    | ReverifyDone(documentId: string, verifierId: string, newSuspicionScore: real)

  /** `data.get('verifier_id')` of the request body. */
  function BodyVerifierId(body: map<string, string>): Option<string> {
    if "verifier_id" in body then Some(body["verifier_id"]) else None
  }

  /**
   * The 200 answer and the store after a re-verification that passed every check: the first
   * document with the id got the verifier (once) and the new score, which process_document
   * gave for its stored text or is the fallback, and the verifier got the document once.
   */
  ghost predicate ReverifyRecorded(resp: ReverifyResponse, documentId: string, verifierId: string, img: ImageInput,
                                   facts: PatternFacts, fault: Fault, docs0: seq<Document>,
                                   verifiers0: seq<Account>, docs: seq<Document>, verifiers: seq<Account>)
  {
    match FirstIndex(docs0, (d: Document) => d.id == documentId)
    case None => false
    case Some(k) =>
      && resp.ReverifyDone? && resp.documentId == documentId && resp.verifierId == verifierId
      && (exists analysis :: RescoredAs(docs0[k], img, facts, fault, analysis, resp.newSuspicionScore))
      && 0.0 <= resp.newSuspicionScore <= 0.86
      && docs == docs0[k := Reverified(docs0[k], verifierId, resp.newSuspicionScore)]
      && verifiers == AddDocumentOnce(verifiers0, verifierId, documentId)
  }

  /** Re-scoring and both updates, for a request that passed every check. */
  method RecordReverification(db: Mongo, documentId: string, verifierId: string, img: ImageInput,
                              facts: PatternFacts, fault: Fault)
    returns (resp: ReverifyResponse)
    requires FirstIndex(db.documents, (d: Document) => d.id == documentId).Some?
    modifies db`documents, db`verifiers
    ensures ReverifyRecorded(resp, documentId, verifierId, img, facts, fault, old(db.documents), old(db.verifiers),
                             db.documents, db.verifiers)
  {
    var k := FirstIndex(db.documents, (d: Document) => d.id == documentId).value;
    var analysis, score := Rescore(db.documents[k], img, facts, fault);
    assert RescoredAs(old(db.documents)[k], img, facts, fault, analysis, score);
    db.ReverifyDocument(documentId, verifierId, score);
    db.AddVerifierDocumentOnce(verifierId, documentId);
    resp := ReverifyDone(documentId, verifierId, score);
  }

  /**
   * POST /verify/<document_id>, check by check: no JSON body 500, no verifier id 400, an
   * unknown verifier 404, a malformed document id 500, an unknown document 404, a malformed
   * verifier id 500; every error changes nothing, and a request past them all is recorded.
   */
  method VerifyDocumentById(db: Mongo, documentId: string, body: Option<map<string, string>>,
                            img: ImageInput, facts: PatternFacts, fault: Fault)
    returns (resp: ReverifyResponse)
    modifies db
    ensures resp.ReverifyError? ==> unchanged(db)
    ensures body.None? ==> resp == ReverifyError(500, "Failed to verify document")
    ensures body.Some? && !Given(BodyVerifierId(body.value)) ==> resp == ReverifyError(400, "Verifier ID is required")
    ensures body.Some? && Given(BodyVerifierId(body.value)) ==>
      var vid := BodyVerifierId(body.value).value;
      var known := FindAccountById(old(db.verifiers), vid).Some?;
      var found := FirstIndex(old(db.documents), (d: Document) => d.id == documentId).Some?;
      && (!known ==> resp == ReverifyError(404, "Verifier not found"))
      && (known && !IsObjectIdText(documentId) ==> resp == ReverifyError(500, "Failed to verify document"))
      && (known && IsObjectIdText(documentId) && !found ==> resp == ReverifyError(404, "Document not found"))
      && (known && IsObjectIdText(documentId) && found && !IsObjectIdText(vid) ==>
            resp == ReverifyError(500, "Failed to verify document"))
      && (known && IsObjectIdText(documentId) && found && IsObjectIdText(vid) ==>
            && ReverifyRecorded(resp, documentId, vid, img, facts, fault, old(db.documents), old(db.verifiers),
                                db.documents, db.verifiers)
            && db.issuers == old(db.issuers) && db.institutes == old(db.institutes))
  {
    if body.None? {
      return ReverifyError(500, "Failed to verify document");
    }
    var verifierId := BodyVerifierId(body.value);
    if !Given(verifierId) {
      return ReverifyError(400, "Verifier ID is required");
    }
    var vid := verifierId.value;
    if FindAccountById(db.verifiers, vid).None? {
      return ReverifyError(404, "Verifier not found");
    }
    if !IsObjectIdText(documentId) {
      return ReverifyError(500, "Failed to verify document");
    }
    if FirstIndex(db.documents, (d: Document) => d.id == documentId).None? {
      return ReverifyError(404, "Document not found");
    }
    if !IsObjectIdText(vid) {
      // `ObjectId(verifier_id)` in the update raises after the re-scoring, which changes
      // nothing stored; the handler answers 500
      return ReverifyError(500, "Failed to verify document");
    }
    resp := RecordReverification(db, documentId, vid, img, facts, fault);
  }
}
