/**
 * Text extraction from an uploaded file: only the dispatch on the file type
 * is modelled. Reading a PDF, a DOCX or a plain-text file is a parameter.
 */
module Extraction {
  import opened Wrappers

  /** The three readers the service has. */
  datatype FileKind = Pdf | Docx | PlainText

  /** Reads the file at a path with the given reader; may throw. */
  type Reader = (FileKind, string) -> Result<string, Error>

  /** The message of the error raised for any other file type. */
  const UnsupportedPrefix: string := "Không hỗ trợ loại file: "

  /** The file types the dispatch knows, compared exactly and case-sensitively. */
  const KnownTypes: seq<string> := ["pdf", "docx", "text", "txt"]

  /** The reader for a file type, if any. */
  function KindOf(fileType: string): (r: Option<FileKind>)
    ensures r.Some? <==> fileType in KnownTypes
    ensures r.Some? ==> fileType != []
    ensures r == Some(Pdf) <==> fileType == "pdf"
    ensures r == Some(Docx) <==> fileType == "docx"
    ensures r == Some(PlainText) <==> fileType == "text" || fileType == "txt"
  {
    if fileType == "pdf" then Some(Pdf)
    else if fileType == "docx" then Some(Docx)
    else if fileType == "text" || fileType == "txt" then Some(PlainText)
    else None
  }

  /**
   * `extractText`: a known type is read by its reader; any other type is
   * refused without touching the file.
   */
  function ExtractText(filePath: string, fileType: string, read: Reader): (r: Result<string, Error>)
    ensures fileType !in KnownTypes ==> r == Failure(Error(UnsupportedPrefix + fileType))
    ensures fileType == "pdf" ==> r == read(Pdf, filePath)
    ensures fileType == "docx" ==> r == read(Docx, filePath)
    ensures fileType == "text" || fileType == "txt" ==> r == read(PlainText, filePath)
  {
    match KindOf(fileType)
    case None => Failure(Error(UnsupportedPrefix + fileType))
    case Some(kind) => read(kind, filePath)
  }

  /** With readers that never fail, extraction succeeds exactly on the four known types. */
  lemma ExtractionSucceedsOnKnownTypes(filePath: string, fileType: string, read: Reader)
    requires forall kind: FileKind, p: string :: read(kind, p).Success?
    ensures ExtractText(filePath, fileType, read).Success? <==> fileType in KnownTypes
  {
  }

  /** The dispatch is case-sensitive: an upper-case `PDF` is refused. */
  lemma UpperCaseTypeRefused(filePath: string, read: Reader)
    ensures ExtractText(filePath, "PDF", read) == Failure(Error(UnsupportedPrefix + "PDF"))
  {
    assert "PDF" != "pdf" by { assert "PDF"[0] != "pdf"[0]; }
  }
}
