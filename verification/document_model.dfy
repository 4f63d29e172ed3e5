/**
 * Document records as the back end stores them (server/models/document_model.py): the
 * record `create_document` builds from a route's data, filling defaults for absent fields.
 * The timestamp is not part of the model.
 */
module DocumentModel {
  import opened Wrappers

  /** `ocr_data`: empty, or the extracted text (its length and the method are derived from it). */
  datatype OcrData = NoOcr | Ocr(extractedText: string)

  /** The `metaData` keys the routes write or read; `None` is an absent key. */
  datatype MetaData = MetaData(
    originalFilename: Option<string>,
    uploadMethod: Option<string>,
    documentType: Option<string>,
    actorName: Option<string>,
    actorInstitution: Option<string>,
    verificationNotes: Option<string>,
    verificationStatus: Option<string>)

  /** `ocr_data.get("extracted_text", "")`. */
  function ExtractedText(o: OcrData): string {
    if o.Ocr? then o.extractedText else ""
  }

  const EmptyMetaData := MetaData(None, None, None, None, None, None, None)

  /** The dictionary a route passes to create_document; `None` is an absent key or a null value. */
  datatype DocumentData = DocumentData(
    source: Option<string>,
    status: Option<string>,
    issuerId: Option<string>,
    verifiedBy: Option<seq<string>>,
    ocrData: Option<OcrData>,
    aiScore: Option<real>,
    metaData: Option<MetaData>,
    hash: Option<string>)

  /** A stored document. */
  datatype Document = Document(
    id: string,
    source: Option<string>,
    status: string,
    issuerId: Option<string>,
    verifiedBy: seq<string>,
    ocrData: OcrData,
    aiScore: real,
    metaData: MetaData,
    hash: Option<string>)

  /**
   * create_document's record: source, issuer and hash copied, status "pending", score 0.0
   * and empty OCR data and metadata when absent, and no verifiers whatever the data says.
   */
  function NewDocument(id: string, data: DocumentData): (d: Document)
    ensures d.id == id
    ensures d.source == data.source && d.issuerId == data.issuerId && d.hash == data.hash
    ensures d.verifiedBy == []
    ensures data.status.None? ==> d.status == "pending"
    ensures data.status.Some? ==> d.status == data.status.value
    ensures data.aiScore.None? ==> d.aiScore == 0.0
    ensures data.aiScore.Some? ==> d.aiScore == data.aiScore.value
    ensures data.ocrData.None? ==> d.ocrData == NoOcr
    ensures data.ocrData.Some? ==> d.ocrData == data.ocrData.value
    ensures data.metaData.None? ==> d.metaData == EmptyMetaData
    ensures data.metaData.Some? ==> d.metaData == data.metaData.value
  {
    Document(
      id,
      data.source,
      data.status.GetOr("pending"),
      data.issuerId,
      [],
      data.ocrData.GetOr(NoOcr),
      data.aiScore.GetOr(0.0),
      data.metaData.GetOr(EmptyMetaData),
      data.hash)
  }

  /** The verifiers requested in the data never reach the stored record. */
  lemma NewDocumentDropsVerifiers(id: string, data: DocumentData, v: string)
    requires data.verifiedBy == Some([v])
    ensures NewDocument(id, data).verifiedBy != data.verifiedBy.value
  {
  }

  /** add_verifier's `$push` on one record: the id goes at the end, even when already present. */
  function WithVerifier(d: Document, verifierId: string): (e: Document)
    ensures e.verifiedBy == d.verifiedBy + [verifierId]
    ensures |e.verifiedBy| == |d.verifiedBy| + 1
    ensures e.(verifiedBy := d.verifiedBy) == d
  {
    d.(verifiedBy := d.verifiedBy + [verifierId])
  }
}
