/** The upload check of the document-processing agent: an uploaded file
    must have a supported extension and be at most 50 MB, and the extension
    is checked first. */
module WorkflowAgent {
  import opened Wrappers
  import opened Strings
  import opened Schemas
  import Validators

  /** `max_size_mb` */
  const MaxUploadMb: real := 50.0

  /** What the check answers; the message texts are not modelled. */
  datatype UploadOutcome = InvalidType | TooLarge | Validated(filename: string, sizeMb: real, fileType: string)

  /** `validate_document_upload`: an unsupported extension is reported
      whatever the size; a supported file above 50 MB is too large; any other
      file is accepted, exactly 50 MB included. */
  function ValidateDocumentUpload(filename: string, fileType: string, fileSizeMb: real): (r: UploadOutcome)
    ensures !HasSupportedExtension(filename) ==> r == InvalidType
    ensures HasSupportedExtension(filename) && fileSizeMb > MaxUploadMb ==> r == TooLarge
    ensures r.Validated? <==> HasSupportedExtension(filename) && fileSizeMb <= MaxUploadMb
    ensures r.Validated? ==> r == Validated(filename, fileSizeMb, fileType)
  {
    if !HasSupportedExtension(filename) then InvalidType
    else if fileSizeMb > MaxUploadMb then TooLarge
    else Validated(filename, fileSizeMb, fileType)
  }

  /** Bytes to MB, as the size in bytes the document records relates to the
      size in MB the agent is given. */
  function SizeMb(sizeBytes: int): real {
    sizeBytes as real / (1024 * 1024) as real
  }

  /** The upload check accepts a document exactly when the file-constraints
      rule of the document validator passes it; they disagree only on which
      problem a file with both problems reports: the upload check names the
      type, the rule names the size. */
  lemma UploadAgreesWithFileRule(doc: DocumentInfo)
    ensures ValidateDocumentUpload(doc.filename, doc.fileType, SizeMb(doc.sizeBytes)).Validated?
        <==> Validators.FileViolation(Some(doc)) == None
    ensures !HasSupportedExtension(doc.filename) && doc.sizeBytes > Validators.MaxDocumentBytes ==>
      && ValidateDocumentUpload(doc.filename, doc.fileType, SizeMb(doc.sizeBytes)) == InvalidType
      && Validators.FileViolation(Some(doc)) == Some(Validators.FileTooLarge(doc.sizeBytes))
  {
    assert SizeMb(doc.sizeBytes) <= MaxUploadMb <==> doc.sizeBytes <= Validators.MaxDocumentBytes;
  }

  /** A 10 MB `.pdf` passes; a 60 MB one is too large. */
  lemma UploadExamples()
    ensures ValidateDocumentUpload("report.pdf", "pdf", 10.0) == Validated("report.pdf", 10.0, "pdf")
    ensures ValidateDocumentUpload("report.pdf", "pdf", 60.0) == TooLarge
    ensures ValidateDocumentUpload("report.exe", "exe", 60.0) == InvalidType
  {
    assert EndsWith("report.pdf", ".pdf");
    assert HasSupportedExtension("report.pdf");
    assert !EndsWith("report.exe", ".pdf") && !EndsWith("report.exe", ".docx");
    assert !EndsWith("report.exe", ".txt") && !EndsWith("report.exe", ".md");
  }
}
