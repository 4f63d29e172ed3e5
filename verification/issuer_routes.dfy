/**
 * The issuer endpoints (server/routes/issuer_routes.py): an issuer's upload is stored as
 * pre-verified with suspicion score 0.0, and the issuer's listing shows every record whose
 * issuer is that account. Cloud storage, OCR and hashing are inputs as in the verifier routes.
 */
module IssuerRoutes {
  import opened Wrappers
  import opened Text
  import opened DocumentModel
  import opened AccountModel
  import opened UploadRules
  import opened Store

  /** The dictionary the issuer upload hands to create_document. */
  function IssuerDocumentData(issuerId: string, url: string, ocrText: string, filename: string, issuer: Account,
                              documentType: Option<string>, hash: Option<string>): (data: DocumentData)
    ensures data.status == Some("verified") && data.aiScore == Some(0.0)
    ensures data.issuerId == Some(issuerId) && data.verifiedBy == Some([issuerId])
    ensures data.ocrData == Some(Ocr(ocrText)) && data.hash == hash && data.source == Some(url)
    ensures data.metaData.Some? && data.metaData.value.documentType == Some(documentType.GetOr("certificate"))
    ensures data.metaData.Some? && data.metaData.value.uploadMethod == Some("issuer_upload")
  {
    DocumentData(
      Some(url), Some("verified"), Some(issuerId), Some([issuerId]), Some(Ocr(ocrText)), Some(0.0),
      Some(MetaData(
        Some(filename), Some("issuer_upload"), Some(documentType.GetOr("certificate")),
        Some(issuer.name.GetOr("")), Some(issuer.institution.GetOr("")), None, None)),
      hash)
  }

  datatype UploadResponse =
    | UploadError(code: nat, error: string)
    | UploadCreated(documentId: string, filename: string, documentUrl: string, publicId: string,
                    hash: Option<string>, suspicionScore: real, status: string, ocrTextPreview: string)

  /**
   * POST /upload for an issuer. Any failed check leaves the store unchanged; a success inserts
   * one "verified" record with score 0.0 and pushes its id onto the issuer's list.
   */
  method UploadDocument(db: Mongo, form: UploadForm, cloud: CloudUpload, hash: Option<string>, ocrText: string,
                        newId: string)
    returns (resp: UploadResponse)
    modifies db
    ensures resp.UploadError? ==> unchanged(db)
    ensures ValidateUpload(IssuerRole, form, old(db.issuers)).Rejected? ==>
      resp == UploadError(ValidateUpload(IssuerRole, form, old(db.issuers)).code,
                          ValidateUpload(IssuerRole, form, old(db.issuers)).error)
    ensures ValidateUpload(IssuerRole, form, old(db.issuers)).Accepted? && cloud.CloudFailed? ==>
      resp == UploadError(500, "Failed to upload document to cloud storage")
    ensures ValidateUpload(IssuerRole, form, old(db.issuers)).Accepted? && cloud.CloudStored? ==> resp.UploadCreated?
    ensures resp.UploadCreated? ==>
      var v := ValidateUpload(IssuerRole, form, old(db.issuers));
      && v.Accepted? && cloud.CloudStored?
      && resp == UploadCreated(newId, v.filename, cloud.secureUrl, cloud.publicId, hash, 0.0, "verified",
                               Preview(ocrText, 100))
      && db.documents == old(db.documents) + [NewDocument(newId, IssuerDocumentData(
           v.actorId, cloud.secureUrl, ocrText, v.filename, v.actor, form.documentType, hash))]
      && db.issuers == PushDocument(old(db.issuers), v.actorId, newId)
      && db.verifiers == old(db.verifiers) && db.institutes == old(db.institutes)
  {
    var v := ValidateUpload(IssuerRole, form, db.issuers);
    if v.Rejected? {
      return UploadError(v.code, v.error);
    }
    if cloud.CloudFailed? {
      return UploadError(500, "Failed to upload document to cloud storage");
    }
    var data := IssuerDocumentData(v.actorId, cloud.secureUrl, ocrText, v.filename, v.actor, form.documentType, hash);
    var docId := db.CreateDocument(newId, data);
    db.PushIssuerDocument(v.actorId, docId);
    resp := UploadCreated(docId, v.filename, cloud.secureUrl, cloud.publicId, hash, 0.0, "verified",
                          Preview(ocrText, 100));
  }

  /**
   * The issuer's own id requested as the record's first verifier is dropped by
   * create_document: the stored record is "verified" yet has no verifier.
   */
  lemma IssuerRecordHasNoVerifier(issuerId: string, url: string, ocrText: string, filename: string, issuer: Account,
                                  documentType: Option<string>, hash: Option<string>, id: string)
    ensures var d := NewDocument(id, IssuerDocumentData(issuerId, url, ocrText, filename, issuer, documentType, hash));
      && d.status == "verified" && d.aiScore == 0.0 && d.issuerId == Some(issuerId)
      && d.verifiedBy == [] && issuerId !in d.verifiedBy
  {
  }

  /** One entry of the issuer listing. */
  datatype ListedDocument = ListedDocument(documentId: string, filename: string, status: string,
                                           documentType: string, ocrTextPreview: string, suspicionScore: real)

  function FormatDocument(d: Document): (e: ListedDocument)
    ensures e.documentId == d.id && e.status == d.status && e.suspicionScore == d.aiScore
    ensures e.ocrTextPreview == ListPreview(ExtractedText(d.ocrData), 100)
    ensures d.metaData.originalFilename.None? ==> e.filename == "Unknown"
    ensures d.metaData.documentType.None? ==> e.documentType == "certificate"
  {
    ListedDocument(
      d.id,
      d.metaData.originalFilename.GetOr("Unknown"),
      d.status,
      d.metaData.documentType.GetOr("certificate"),
      ListPreview(ExtractedText(d.ocrData), 100),
      d.aiScore)
  }

  /** The loop that fills `formatted_docs`: one entry per document, in query order. */
  method FormatDocuments(docs: seq<Document>) returns (formatted: seq<ListedDocument>)
    ensures |formatted| == |docs|
    ensures forall k :: 0 <= k < |docs| ==> formatted[k] == FormatDocument(docs[k])
  {
    formatted := [];
    for i := 0 to |docs|
      invariant |formatted| == i
      invariant forall k :: 0 <= k < i ==> formatted[k] == FormatDocument(docs[k])
    {
      formatted := formatted + [FormatDocument(docs[i])];
    }
  }

  /** The documents whose issuer is `issuerId`, in store order. */
  function IssuedBy(docs: seq<Document>, issuerId: string): (r: seq<Document>)
    ensures |r| <= |docs|
    ensures forall d :: d in r <==> d in docs && d.issuerId == Some(issuerId)
  {
    if docs == [] then []
    else (if docs[0].issuerId == Some(issuerId) then [docs[0]] else []) + IssuedBy(docs[1..], issuerId)
  }

  /** Every record an issuer uploads appears in that issuer's listing. */
  lemma {:induction false} UploadedRecordListed(docs: seq<Document>, issuerId: string, d: Document)
    requires d.issuerId == Some(issuerId)
    ensures IssuedBy(docs + [d], issuerId) == IssuedBy(docs, issuerId) + [d]
  {
    if docs == [] {
      assert [] + [d] == [d];
    } else {
      assert (docs + [d])[1..] == docs[1..] + [d];
      UploadedRecordListed(docs[1..], issuerId, d);
    }
  }

  datatype ListResponse =
    | ListError(code: nat, error: string)
    | Listing(issuerId: string, issuerName: string, institution: string, totalDocuments: nat,
              documents: seq<ListedDocument>)

  /**
   * GET /documents/<issuer_id>: 500 for a malformed id (get_issuer raises), 404 for an unknown
   * issuer, else one entry per record of that issuer, in order.
   */
  method GetIssuerDocuments(db: Mongo, issuerId: string) returns (resp: ListResponse)
    ensures !IsObjectIdText(issuerId) ==> resp == ListError(500, "Failed to retrieve documents")
    ensures IsObjectIdText(issuerId) && FindAccountById(db.issuers, issuerId).None? ==>
      resp == ListError(404, "Issuer not found")
    ensures IsObjectIdText(issuerId) && FindAccountById(db.issuers, issuerId).Some? ==>
      && resp.Listing?
      && resp.issuerName == FindAccountById(db.issuers, issuerId).value.name.GetOr("")
    ensures resp.Listing? ==>
      var docs := IssuedBy(db.documents, issuerId);
      && resp.issuerId == issuerId
      && resp.totalDocuments == |resp.documents| == |docs|
      && forall k :: 0 <= k < |docs| ==> resp.documents[k] == FormatDocument(docs[k])
  {
    if !IsObjectIdText(issuerId) {
      return ListError(500, "Failed to retrieve documents");
    }
    var issuer := FindAccountById(db.issuers, issuerId);
    if issuer.None? {
      return ListError(404, "Issuer not found");
    }
    var formatted := FormatDocuments(IssuedBy(db.documents, issuerId));
    resp := Listing(issuerId, issuer.value.name.GetOr(""), issuer.value.institution.GetOr(""), |formatted|, formatted);
  }
}
