/**
 * The issuer home page (client/src/components/IssuerHomepage.jsx): a mock upload that
 * prepends a "verified" entry for the selected file. The clock and the timer are parameters.
 */
module IssuerHomepage {
  import opened Wrappers

  /** One history entry. */
  datatype Entry = Entry(id: int, name: string, kind: string, uploadDate: string, status: string)

  const SampleHistory := [Entry(1, "Sample_Certificate.pdf", "certificate", "2025-01-15", "verified")]

  /** The selected file, reduced to its name. */
  datatype SelectedFile = SelectedFile(name: string)

  class Page {
    var selectedFile: Option<SelectedFile>
    var documentType: string
    var isUploading: bool
    var uploadedDocs: seq<Entry>

    constructor ()
      ensures selectedFile.None? && documentType == "certificate" && !isUploading && uploadedDocs == SampleHistory
    {
      selectedFile, documentType, isUploading, uploadedDocs := None, "certificate", false, SampleHistory;
    }

    method SelectFile(file: Option<SelectedFile>)
      modifies this`selectedFile
      ensures selectedFile == file
    {
      selectedFile := file;
    }

    /** The document type select: the only writer of documentType. */
    method SelectDocumentType(kind: string)
      modifies this`documentType
      ensures documentType == kind
    {
      documentType := kind;
    }

    /**
     * handleUpload, with the timer's callback run to completion: without a file nothing
     * changes; otherwise a "verified" entry named after the file, of the selected type, goes
     * first, the earlier entries follow unchanged, and the form resets. The type is kept.
     */
    method HandleUpload(id: int, date: string)
      modifies this`selectedFile, this`isUploading, this`uploadedDocs
      ensures old(selectedFile).None? ==>
        selectedFile == old(selectedFile) && isUploading == old(isUploading) && uploadedDocs == old(uploadedDocs)
      ensures old(selectedFile).Some? ==>
        && uploadedDocs == [Entry(id, old(selectedFile).value.name, documentType, date, "verified")] + old(uploadedDocs)
        && |uploadedDocs| == |old(uploadedDocs)| + 1
        && uploadedDocs[1..] == old(uploadedDocs)
        && selectedFile.None? && !isUploading
    {
      if selectedFile.None? {
        return;
      }
      isUploading := true;
      uploadedDocs := [Entry(id, selectedFile.value.name, documentType, date, "verified")] + uploadedDocs;
      selectedFile := None;
      isUploading := false;
    }
  }
}
