/**
 * The knowledge-base controller: the upload interceptor's extension filter,
 * size limit and stored file name, the file type handed to the service, and
 * the answers of the upload, list, detail, delete, reindex and search
 * endpoints. The fresh file name (a UUID in the source) is a parameter.
 */
module KnowledgeController {
  import opened Wrappers
  import opened Text
  import opened Schemas
  import opened Store
  import opened VectorDb
  import opened KnowledgeService
  import Extraction
  import Rag
  import Embedder
  import Json

  // ---------------------------------------------------------------------------
  // path.extname (POSIX)
  // ---------------------------------------------------------------------------

  /** The path without the `/`s it ends with. */
  function StripTrailingSlashes(path: string): (r: string)
    decreases |path|
    ensures |r| <= |path| && r == path[..|r|]
    ensures r == [] || r[|r| - 1] != '/'
  {
    if |path| > 0 && path[|path| - 1] == '/' then StripTrailingSlashes(path[..|path| - 1]) else path
  }

  /** `path.basename`: the last component of the path. */
  function BaseName(path: string): (r: string)
    ensures '/' !in r
  {
    var p := StripTrailingSlashes(path);
    p[LastIndexOfChar(p, '/') + 1..]
  }

  /** The component `..`, which has no extension. */
  predicate IsParent(base: string) {
    |base| == 2 && base[0] == '.' && base[1] == '.'
  }

  /**
   * `path.extname`: the last component from its last `.` on. There is none
   * when the component has no `.`, when its last `.` is its first
   * character (a dot-file), or when the component is `..`.
   */
  function Extname(path: string): string {
    var base := BaseName(path);
    var d := LastIndexOfChar(base, '.');
    if d <= 0 || IsParent(base) then [] else base[d..]
  }

  /** An extension is empty, or a dot, then no dot and no slash, ending the last component. */
  lemma ExtnameShape(path: string)
    ensures var r := Extname(path);
      r == [] || (r[0] == '.' && '.' !in r[1..] && '/' !in r && EndsWith(BaseName(path), r))
  {
    var base := BaseName(path);
    var d := LastIndexOfChar(base, '.');
    if 0 < d && !IsParent(base) {
      assert base[d..][1..] == base[d + 1..];
    }
  }

  /** A path without a slash is its own last component. */
  lemma BaseNameOfPlain(s: string)
    requires '/' !in s
    ensures BaseName(s) == s
  {
    assert StripTrailingSlashes(s) == s by {
      if |s| > 0 {
        assert s[|s| - 1] in s;
      }
    }
  }

  /** The last `.` of `p . tail`, when `tail` has none, is the one between them. */
  lemma {:induction false} LastDotBefore(p: string, tail: string)
    requires '.' !in tail
    decreases |tail|
    ensures LastIndexOfChar(p + "." + tail, '.') == |p|
  {
    var s := p + "." + tail;
    if |tail| > 0 {
      var shorter := tail[..|tail| - 1];
      assert s[..|s| - 1] == p + "." + shorter;
      assert s[|s| - 1] == tail[|tail| - 1];
      assert '.' !in shorter by {
        forall k | 0 <= k < |shorter|
          ensures shorter[k] != '.'
        {
          assert shorter[k] == tail[k];
        }
      }
      LastDotBefore(p, shorter);
    } else {
      assert s[|s| - 1] == '.';
    }
  }

  /** The extension of a path whose last component's last `.` is at `d`. */
  lemma ExtnameAt(path: string, d: int)
    requires LastIndexOfChar(BaseName(path), '.') == d
    ensures d <= 0 || IsParent(BaseName(path)) ==> Extname(path) == []
    ensures 0 < d && !IsParent(BaseName(path)) ==> Extname(path) == BaseName(path)[d..]
  {
  }

  /** A slash-free piece followed by a dot and a slash-free tail has no slash. */
  lemma NoSlashAround(stem: string, e: string)
    requires '/' !in stem && '/' !in e
    ensures '/' !in stem + "." + e
  {
    var name := stem + "." + e;
    forall k | 0 <= k < |name|
      ensures name[k] != '/'
    {
      if k < |stem| {
        assert name[k] == stem[k];
      } else if k > |stem| {
        assert name[k] == e[k - |stem| - 1];
      }
    }
  }

  /** A file name's extension is what follows its last dot. */
  lemma ExtnameOfName(stem: string, e: string)
    requires stem != [] && '/' !in stem
    requires '.' !in e && '/' !in e
    requires stem != "." || e != []
    ensures Extname(stem + "." + e) == "." + e
  {
    var name := stem + "." + e;
    NoSlashAround(stem, e);
    LastDotBefore(stem, e);
    assert name[|stem|..] == "." + e;
    assert !IsParent(name) by {
      if |stem| == 1 && e == [] {
        assert name[0] == stem[0] && stem == [stem[0]];
      }
    }
    ExtnameAfterDot(name, |stem|, "." + e);
  }

  /** The extension of a slash-free name whose last `.` is at `k > 0`, unless the name is `..`. */
  lemma ExtnameAfterDot(name: string, k: int, ext: string)
    requires '/' !in name && LastIndexOfChar(name, '.') == k && 0 < k
    requires ext == name[k..] && !IsParent(name)
    ensures Extname(name) == ext
  {
    BaseNameOfPlain(name);
    ExtnameAt(name, k);
  }

  /** A dot-file has no extension. */
  lemma DotFileHasNoExtension(e: string)
    requires '.' !in e && '/' !in e && e != []
    ensures Extname("." + e) == []
  {
    NoSlashAround("", e);
    LastDotBefore("", e);
    assert "" + "." + e == "." + e;
    BaseNameOfPlain("." + e);
    ExtnameAt("." + e, 0);
  }

  /** The last component is a slice of the path. */
  lemma BaseNameSlice(path: string) returns (j: nat)
    ensures j + |BaseName(path)| <= |path| && BaseName(path) == path[j..j + |BaseName(path)|]
  {
    var p := StripTrailingSlashes(path);
    j := LastIndexOfChar(p, '/') + 1;
    assert BaseName(path) == p[j..] == path[j..|p|];
  }

  /** A name without a dot has no extension. */
  lemma NoDotNoExtension(name: string)
    requires '.' !in name
    ensures Extname(name) == []
  {
    var base := BaseName(name);
    var j := BaseNameSlice(name);
    forall k | 0 <= k < |base|
      ensures base[k] != '.'
    {
      assert base[k] == name[j + k];
    }
    ExtnameAt(name, LastIndexOfChar(base, '.'));
  }

  // ---------------------------------------------------------------------------
  // The upload interceptor
  // ---------------------------------------------------------------------------

  /** The extensions the filter lets through, compared after lower-casing. */
  const AllowedTypes: seq<string> := [".pdf", ".docx", ".txt"]

  /** The largest file accepted, in bytes: 10 MiB. */
  const MaxFileSize: nat := 10 * 1024 * 1024

  /** The directory uploads are stored in, as `path.join` writes it. */
  const UploadDir: string := "uploads"

  /** The error the filter raises for any other extension, naming it lower-cased. */
  function RejectionMessage(ext: string): string {
    "Không hỗ trợ file " + ext + ". Chấp nhận: " + Join(AllowedTypes, ", ")
  }

  /** `fileFilter`: the lower-cased extension of the client's file name must be one of the allowed ones. */
  function FileFilter(originalname: string): (r: Result<(), string>)
    ensures r.Success? <==> Lower(Extname(originalname)) in AllowedTypes
    ensures r.Failure? ==> r.error == RejectionMessage(Lower(Extname(originalname)))
  {
    var ext := Lower(Extname(originalname));
    if ext in AllowedTypes then Success(()) else Failure(RejectionMessage(ext))
  }

  /** Lower-casing a dotted extension lower-cases what follows the dot. */
  lemma LowerDotted(e: string)
    ensures Lower("." + e) == "." + Lower(e)
  {
    assert forall i :: 0 < i <= |e| ==> ("." + e)[i] == e[i - 1];
  }

  /**
   * A plain file name passes the filter exactly when what follows its last
   * dot is `pdf`, `docx` or `txt` in any mix of cases.
   */
  lemma FilterOnName(stem: string, e: string)
    requires stem != [] && '/' !in stem
    requires '.' !in e && '/' !in e
    requires stem != "." || e != []
    ensures FileFilter(stem + "." + e).Success? <==> Lower(e) in ["pdf", "docx", "txt"]
  {
    ExtnameOfName(stem, e);
    LowerDotted(e);
    DottedAllowedIff(Lower(e));
  }

  /** The allowed extensions are the dotted forms of `pdf`, `docx` and `txt`. */
  lemma DottedAllowedIff(x: string)
    ensures "." + x in AllowedTypes <==> x in ["pdf", "docx", "txt"]
  {
    var d := "." + x;
    assert d[1..] == x;
    assert d == ".pdf" ==> x == "pdf" by { if d == ".pdf" { assert d[1..] == ".pdf"[1..]; } }
    assert d == ".docx" ==> x == "docx" by { if d == ".docx" { assert d[1..] == ".docx"[1..]; } }
    assert d == ".txt" ==> x == "txt" by { if d == ".txt" { assert d[1..] == ".txt"[1..]; } }
  }

  /** `filename`: the fresh name followed by the client's extension. */
  function StoredFilename(fileId: string, originalname: string): string {
    fileId + Extname(originalname)
  }

  /** A UUID-like name: non-empty, without a dot or a slash. */
  predicate PlainId(fileId: string) {
    fileId != [] && '.' !in fileId && '/' !in fileId
  }

  /** The stored file keeps the client file's extension, whatever the client's name was. */
  lemma StoredNameKeepsExtension(fileId: string, originalname: string)
    requires PlainId(fileId)
    ensures Extname(StoredFilename(fileId, originalname)) == Extname(originalname)
  {
    var ext := Extname(originalname);
    if ext == [] {
      assert StoredFilename(fileId, originalname) == fileId;
      NoDotNoExtension(fileId);
    } else {
      var e := ext[1..];
      assert ext == "." + e;
      assert StoredFilename(fileId, originalname) == fileId + "." + e;
      ExtnameOfName(fileId, e);
    }
  }

  /** A file part as the client sends it. */
  datatype UploadedFile = UploadedFile(originalname: string, size: nat)

  datatype ControllerError =
    | Rejected(message: string)          // the filter's error
    | TooLarge                           // the size limit
    | Service(error: ServiceError)       // whatever the service throws

  /**
   * What the interceptor does with the file part: no file is no path; a
   * file is filtered, then held to the size limit, then stored under
   * `uploads/` with its fresh name.
   */
  function Receive(file: Option<UploadedFile>, fileId: string): (r: Result<Option<string>, ControllerError>)
    ensures file.None? ==> r == Success(None)
    ensures file.Some? && FileFilter(file.value.originalname).Failure? ==>
      r == Failure(Rejected(FileFilter(file.value.originalname).error))
    ensures file.Some? && FileFilter(file.value.originalname).Success? && file.value.size > MaxFileSize ==>
      r == Failure(TooLarge)
    ensures r.Success? && file.Some? ==>
      r.value == Some(UploadDir + "/" + StoredFilename(fileId, file.value.originalname))
  {
    if file.None? then Success(None)
    else
      match FileFilter(file.value.originalname)
      case Failure(message) => Failure(Rejected(message))
      case Success(_) =>
        if file.value.size > MaxFileSize then Failure(TooLarge)
        else Success(Some(UploadDir + "/" + StoredFilename(fileId, file.value.originalname)))
  }

  // ---------------------------------------------------------------------------
  // The file type handed to the service
  // ---------------------------------------------------------------------------

  /** `s.replace('.', '')`: the first `.` removed, if there is one. */
  function RemoveFirstDot(s: string): (r: string)
    ensures '.' !in s ==> r == s
    ensures |s| > 0 && s[0] == '.' ==> r == s[1..]
  {
    var k := IndexOfChar(s, '.');
    if k < 0 then s else s[..k] + s[k + 1..]
  }

  /** The type of a text-only upload. */
  const TextType: string := "text"

  /** `fileType` as written: the extension without its dot, case kept; `text` without a file. */
  function FileTypeAsWritten(file: Option<UploadedFile>): string {
    if file.None? then TextType else RemoveFirstDot(Extname(file.value.originalname))
  }

  /** The file type as written is the file's extension without its dot, case kept. */
  lemma FileTypeDropsDot(f: UploadedFile)
    ensures var ext := Extname(f.originalname);
      ext == [] ==> FileTypeAsWritten(Some(f)) == []
    ensures var ext := Extname(f.originalname);
      ext != [] ==> "." + FileTypeAsWritten(Some(f)) == ext
  {
    var ext := Extname(f.originalname);
    ExtnameShape(f.originalname);
    if ext != [] {
      assert ext == "." + ext[1..];
    }
  }

  /** `fileType` as evidently intended: as written, but lower-cased like the filter's comparison. */
  function FileType(file: Option<UploadedFile>): (r: string)
    ensures file.None? ==> r == TextType
    ensures file.Some? ==> r == Lower(FileTypeAsWritten(file))
  {
    if file.None? then TextType else Lower(RemoveFirstDot(Extname(file.value.originalname)))
  }

  /** Every upload the filter lets through has a file type the extraction dispatch knows. */
  lemma AcceptedFileHasKnownType(file: Option<UploadedFile>)
    requires file.Some? ==> FileFilter(file.value.originalname).Success?
    ensures Extraction.KindOf(FileType(file)).Some?
  {
    if file.Some? {
      var ext := Extname(file.value.originalname);
      assert |Lower(ext)| == |ext| && Lower(ext) in AllowedTypes;
      var t := ext[1..];
      assert ext == "." + t;
      assert FileTypeAsWritten(file) == t;
      LowerDotted(t);
      DottedAllowed(Lower(t));
    }
  }

  /** The allowed extensions without their dot are three of the types the dispatch knows. */
  lemma DottedAllowed(x: string)
    requires "." + x in AllowedTypes
    ensures Extraction.KindOf(x).Some?
  {
    assert ("." + x)[1..] == x;
    assert x == "pdf" || x == "docx" || x == "txt";
  }

  lemma LowerPdf()
    ensures Lower("PDF") == "pdf"
  {
    var l := Lower("PDF");
    assert l[0] == LowerChar('P') == 'p';
    assert l[1] == LowerChar('D') == 'd';
    assert l[2] == LowerChar('F') == 'f';
  }

  /** The case the filter and the dispatch disagree on: `X.PDF` passes the filter... */
  lemma UpperCaseNamePasses()
    ensures FileFilter("X.PDF").Success?
  {
    assert "X" + "." + "PDF" == "X.PDF";
    FilterOnName("X", "PDF");
    LowerPdf();
  }

  /** The as-written type of a plain file name is what follows its last dot, case kept. */
  lemma FileTypeOfName(stem: string, e: string, size: nat)
    requires stem != [] && '/' !in stem
    requires '.' !in e && '/' !in e && e != []
    ensures FileTypeAsWritten(Some(UploadedFile(stem + "." + e, size))) == e
  {
    var f := UploadedFile(stem + "." + e, size);
    ExtnameOfName(stem, e);
    FileTypeDropsDot(f);
    var t := FileTypeAsWritten(Some(f));
    assert t == ("." + t)[1..];
  }

  /** ...and keeps the type `PDF`. */
  lemma UpperCaseTypeKept()
    ensures FileTypeAsWritten(Some(UploadedFile("X.PDF", 0))) == "PDF"
  {
    assert "X" + "." + "PDF" == "X.PDF";
    FileTypeOfName("X", "PDF", 0);
  }

  // ---------------------------------------------------------------------------
  // uploadDocument
  // ---------------------------------------------------------------------------

  /** The form fields of an upload. */
  datatype UploadBody = UploadBody(tenantSlug: string, title: string, category: string, content: Option<string>)

  datatype UploadResponse = UploadResponse(documentId: DocId, status: string, message: string)

  /** The message of every accepted upload. */
  const ProcessingMessage: string := "Tài liệu đang được xử lý..."

  /** What an endpoint leaves behind and what it answers. */
  datatype Answer<T> = Answer(world: World, result: Result<T, ControllerError>)

  /** The service's parameters for an upload: an empty text is no text; no metadata is passed. */
  function UploadParams(body: UploadBody, filePath: Option<string>, fileType: string): (p: CreateParams)
    ensures Given(body.content) <==> p.content.Some?
    ensures p.content.Some? ==> p.content == body.content
    ensures p.fileType == Some(fileType) && p.filePath == filePath && p.metadata.None?
  {
    CreateParams(body.tenantSlug, body.title, body.category, OrNull(body.content), filePath, Some(fileType), None)
  }

  /** An upload with the given file-type rule: receive the file, create the document, answer its id and status. */
  function UploadWith(w: World, file: Option<UploadedFile>, body: UploadBody, fileId: string, newId: DocId,
                      env: Env, fileType: string): (r: Answer<UploadResponse>)
    ensures Receive(file, fileId).Failure? ==> r == Answer(w, Failure(Receive(file, fileId).error))
    ensures Receive(file, fileId).Success? ==>
      var created := Create(w, UploadParams(body, Receive(file, fileId).value, fileType), newId, env);
      && r.world == created.world
      && (r.result.Success? <==> created.result.Success?)
      && (created.result.Failure? ==> r.result == Failure(Service(created.result.error)))
      && (created.result.Success? ==> r.result.value.documentId == created.result.value.id)
  {
    match Receive(file, fileId)
    case Failure(e) => Answer(w, Failure(e))
    case Success(filePath) =>
      var created := Create(w, UploadParams(body, filePath, fileType), newId, env);
      match created.result
      case Failure(e) => Answer(created.world, Failure(Service(e)))
      case Success(doc) => Answer(created.world, Success(UploadResponse(doc.id, StatusName(doc.status), ProcessingMessage)))
  }

  /** `uploadDocument` as written. */
  function UploadAsWritten(w: World, file: Option<UploadedFile>, body: UploadBody, fileId: string, newId: DocId,
                           env: Env): Answer<UploadResponse> {
    UploadWith(w, file, body, fileId, newId, env, FileTypeAsWritten(file))
  }

  /** `uploadDocument` with the file type lower-cased. */
  function Upload(w: World, file: Option<UploadedFile>, body: UploadBody, fileId: string, newId: DocId,
                  env: Env): Answer<UploadResponse> {
    UploadWith(w, file, body, fileId, newId, env, FileType(file))
  }

  /** A file the filter refuses is answered with the filter's message and changes nothing. */
  lemma UploadRejectsUnsupported(w: World, f: UploadedFile, body: UploadBody, fileId: string, newId: DocId, env: Env)
    requires Lower(Extname(f.originalname)) !in AllowedTypes
    ensures Upload(w, Some(f), body, fileId, newId, env) ==
      Answer(w, Failure(Rejected(RejectionMessage(Lower(Extname(f.originalname))))))
  {
  }

  /**
   * An accepted upload answers the new document's identifier, `pending`
   * and the processing message; the document records the stored file's
   * path and the lower-cased type, or no file and the type `text`.
   */
  lemma UploadAnswersPending(w: World, file: Option<UploadedFile>, body: UploadBody, fileId: string, newId: DocId, env: Env)
    requires Upload(w, file, body, fileId, newId, env).result.Success?
    ensures var r := Upload(w, file, body, fileId, newId, env);
      && r.result.value == UploadResponse(newId, "pending", ProcessingMessage)
      && newId in r.world.docs
      && r.world.docs[newId].fileType == Some(FileType(file))
      && (file.None? ==> r.world.docs[newId].filePath.None?)
      && (file.Some? ==> r.world.docs[newId].filePath == Some(UploadDir + "/" + StoredFilename(fileId, file.value.originalname)))
  {
    var filePath := Receive(file, fileId).value;
    var t := FileType(file);
    var p := UploadParams(body, filePath, t);
    assert Upload(w, file, body, fileId, newId, env) == UploadWith(w, file, body, fileId, newId, env, t);
    CreatedDocument(w, p, newId, env);
    AcceptedFileHasKnownType(file);
    assert OrNull(Some(t)) == Some(t);
  }

  /**
   * With readers that never fail, the text of every accepted file is
   * extracted: an upload without text of its own never fails on its file
   * type.
   */
  lemma UploadReadsAcceptedFiles(f: UploadedFile, body: UploadBody, fileId: string, read: Extraction.Reader)
    requires forall kind: Extraction.FileKind, p: string :: read(kind, p).Success?
    requires FileFilter(f.originalname).Success? && f.size <= MaxFileSize
    ensures InitialContent(UploadParams(body, Receive(Some(f), fileId).value, FileType(Some(f))), read).Success?
  {
    var path := UploadDir + "/" + StoredFilename(fileId, f.originalname);
    assert Receive(Some(f), fileId) == Success(Some(path));
    assert path[0] == 'u';
    var t := FileType(Some(f));
    AcceptedFileHasKnownType(Some(f));
    Extraction.ExtractionSucceedsOnKnownTypes(path, t, read);
    var p := UploadParams(body, Some(path), t);
    assert Given(p.filePath) && Given(p.fileType);
  }

  /**
   * As written, a file named `X.PDF` without text of its own is accepted by
   * the filter, stored, and then refused by the extraction: the upload
   * fails and nothing is created, even with readers that never fail.
   */
  lemma UpperCaseUploadFails(w: World, body: UploadBody, fileId: string, newId: DocId, env: Env)
    requires !Given(body.content)
    ensures UploadAsWritten(w, Some(UploadedFile("X.PDF", 0)), body, fileId, newId, env) ==
      Answer(w, Failure(Service(Thrown(Error(Extraction.UnsupportedPrefix + "PDF")))))
  {
    UpperCaseNamePasses();
    UpperCaseTypeKept();
    var f := Some(UploadedFile("X.PDF", 0));
    var path := Receive(f, fileId).value;
    assert path.Some? && path.value != [];
    var p := UploadParams(body, path, "PDF");
    assert Given(p.filePath) && Given(p.fileType);
    Extraction.UpperCaseTypeRefused(path.value, env.read);
  }

  // ---------------------------------------------------------------------------
  // getDocuments and getDocument
  // ---------------------------------------------------------------------------

  /** A document as the list shows it. */
  datatype DocumentSummary = DocumentSummary(
    id: DocId,
    title: string,
    category: string,
    status: string,
    chunkCount: int,
    createdAt: Time,
    indexedAt: Option<Time>,
    errorMessage: Option<string>,
    metadata: DocMetadata)

  function Summary(doc: KnowledgeDocument): DocumentSummary {
    DocumentSummary(doc.id, doc.title, CategoryName(doc.category), StatusName(doc.status), doc.chunkCount,
                    doc.createdAt, doc.indexedAt, doc.errorMessage, doc.metadata)
  }

  datatype ListResponse = ListResponse(documents: seq<DocumentSummary>, total: nat)

  /** The list's answer: one entry per document in the service's order, and their number. */
  function ListResponseOf(docs: seq<KnowledgeDocument>): (r: ListResponse)
    ensures r.total == |r.documents| == |docs|
    ensures forall i :: 0 <= i < |docs| ==> r.documents[i] == Summary(docs[i])
  {
    ListResponse(seq(|docs|, i requires 0 <= i < |docs| => Summary(docs[i])), |docs|)
  }

  /**
   * `getDocuments`: the documents that match every given filter, newest
   * first, and how many there are.
   */
  method ListDocuments(w: World, q: DocumentQuery) returns (r: ListResponse)
    ensures r.total == |r.documents| == |set id | id in w.docs && Matches(w.docs[id], q)|
    ensures forall i :: 0 <= i < |r.documents| ==>
      exists doc :: doc in w.docs.Values && Matches(doc, q) && r.documents[i] == Summary(doc)
    ensures forall id :: id in w.docs && Matches(w.docs[id], q) ==> Summary(w.docs[id]) in r.documents
    ensures forall i, j :: 0 <= i < j < |r.documents| ==> r.documents[i].createdAt >= r.documents[j].createdAt
  {
    var docs := KnowledgeService.List(w, q);
    r := ListResponseOf(docs);
    forall id | id in w.docs && Matches(w.docs[id], q)
      ensures Summary(w.docs[id]) in r.documents
    {
      var k :| 0 <= k < |docs| && docs[k] == w.docs[id];
      assert r.documents[k] == Summary(w.docs[id]);
    }
  }

  /** A document as its detail shows it: the list's fields and its file type. */
  datatype DocumentDetail = DocumentDetail(summary: DocumentSummary, fileType: Option<string>)

  /** `getDocument`: the document's detail, or the service's `404`. */
  function GetDocument(w: World, id: DocId): (r: Result<DocumentDetail, ControllerError>)
    ensures r.Success? <==> id in w.docs
    ensures r.Failure? ==> r.error == Service(NotFound(NotFoundMessage(id)))
  {
    match GetById(w, id)
    case Failure(e) => Failure(Service(e))
    case Success(doc) => Success(DocumentDetail(Summary(doc), doc.fileType))
  }

  /**
   * The detail of a listed document agrees with its list entry, and adds
   * the type it was created with.
   */
  lemma DetailAgreesWithList(w: World, q: DocumentQuery, id: DocId)
    requires id in w.docs && Matches(w.docs[id], q)
    ensures GetDocument(w, id).Success?
    ensures GetDocument(w, id).value.summary == Summary(w.docs[id])
    ensures GetDocument(w, id).value.fileType == w.docs[id].fileType
  {
  }

  // ---------------------------------------------------------------------------
  // deleteDocument and reindexDocument
  // ---------------------------------------------------------------------------

  datatype Ack = Ack(success: bool, message: string)

  const DeletedMessage: string := "Đã xóa tài liệu"
  const ReindexingMessage: string := "Đang reindex..."

  /** `deleteDocument`: the service's delete, acknowledged when it returns. */
  function DeleteDocument(w: World, id: DocId, faults: Faults): (r: Answer<Ack>)
    ensures r.world == Delete(w, id, faults).world
    ensures Delete(w, id, faults).result.Success? ==> r.result == Success(Ack(true, DeletedMessage))
    ensures Delete(w, id, faults).result.Failure? ==> r.result == Failure(Service(Delete(w, id, faults).result.error))
  {
    var out := Delete(w, id, faults);
    match out.result
    case Failure(e) => Answer(out.world, Failure(Service(e)))
    case Success(_) => Answer(out.world, Success(Ack(true, DeletedMessage)))
  }

  /**
   * A delete is acknowledged only when the document, its records and every
   * point naming it are gone; a missing document is a `404` that changes
   * nothing.
   */
  lemma DeleteAckMeansGone(w: World, id: DocId, faults: Faults, pid: PointId)
    ensures id !in w.docs ==> DeleteDocument(w, id, faults) == Answer(w, Failure(Service(NotFound(NotFoundMessage(id)))))
    ensures DeleteDocument(w, id, faults).result.Success? ==>
      var w' := DeleteDocument(w, id, faults).world;
      id !in w'.docs && ChunksOf(w'.chunks, id) == [] && !PointOf(w'.points, pid, id)
  {
    if Delete(w, id, faults).result.Success? {
      DeleteRemovesEverything(w, id, faults, id, pid);
    }
  }

  /** `reindexDocument`: the service's reindex, acknowledged when it returns. */
  function ReindexDocument(w: World, id: DocId, faults: Faults): (r: Answer<Ack>)
    ensures r.world == Reindex(w, id, faults).world
    ensures Reindex(w, id, faults).result.Success? ==> r.result == Success(Ack(true, ReindexingMessage))
    ensures Reindex(w, id, faults).result.Failure? ==> r.result == Failure(Service(Reindex(w, id, faults).result.error))
  {
    var out := Reindex(w, id, faults);
    match out.result
    case Failure(e) => Answer(out.world, Failure(Service(e)))
    case Success(_) => Answer(out.world, Success(Ack(true, ReindexingMessage)))
  }

  /**
   * A reindex is acknowledged only when the document is `pending` again
   * and exactly one new job names it; a missing document is a `404` that
   * changes nothing.
   */
  lemma ReindexAckMeansQueued(w: World, id: DocId, faults: Faults)
    ensures id !in w.docs ==> ReindexDocument(w, id, faults) == Answer(w, Failure(Service(NotFound(NotFoundMessage(id)))))
    ensures ReindexDocument(w, id, faults).result.Success? ==>
      var w' := ReindexDocument(w, id, faults).world;
      && w'.docs[id].status == Pending
      && |w'.jobs| == |w.jobs| + 1
      && w'.jobs[|w.jobs|].data.documentId == id
  {
  }

  // ---------------------------------------------------------------------------
  // search
  // ---------------------------------------------------------------------------

  datatype SearchBody = SearchBody(query: string, tenantSlug: string, category: Option<string>, topK: Option<int>)

  datatype SearchResponse = SearchResponse(chunks: seq<SearchResult>, maxScore: real, total: nat)

  /** The retrieval a search asks for: `topK || 5` already applied. */
  function SearchParams(body: SearchBody): Rag.RetrieveParams {
    Rag.RetrieveParams(body.query, body.tenantSlug, body.category, Some(LimitOr5(body.topK)))
  }

  /** `search`: the retrieval's chunks in order, its best score, and how many chunks there are. */
  function Search(body: SearchBody, embed: string -> Result<Embedder.Vector, Error>,
                  search: SearchRequest -> Result<seq<ScoredPoint>, Error>): (r: Result<SearchResponse, Error>)
    ensures r.Success? <==> Rag.Retrieve(SearchParams(body), embed, search).Success?
    ensures r.Success? ==> r.value.total == |r.value.chunks|
    ensures r.Success? ==>
      r.value.chunks == Rag.Retrieve(SearchParams(body), embed, search).value.chunks &&
      r.value.maxScore == Rag.Retrieve(SearchParams(body), embed, search).value.maxScore
  {
    var result :- Rag.Retrieve(SearchParams(body), embed, search);
    Success(SearchResponse(result.chunks, result.maxScore, |result.chunks|))
  }

  /**
   * The store is asked for `topK || 5` hits: applying the default twice,
   * here and in the retrieval, asks for the same number as once.
   */
  lemma SearchAsksTopKOr5(body: SearchBody, vector: Embedder.Vector)
    ensures Rag.RetrieveRequest(SearchParams(body), vector).limit == LimitOr5(body.topK)
    ensures Rag.RetrieveRequest(SearchParams(body), vector).filter == SearchFilter(body.tenantSlug, body.category)
  {
  }

  /**
   * Against a correct store, a search answers at most `topK || 5` chunks,
   * all of the asking tenant, and `total` counts them.
   */
  lemma SearchWithinLimit(c: Collection, body: SearchBody, embed: string -> Result<Embedder.Vector, Error>,
                          search: SearchRequest -> Result<seq<ScoredPoint>, Error>)
    requires embed(body.query).Success?
    requires search(Rag.RetrieveRequest(SearchParams(body), embed(body.query).value)).Success?
    requires HonoursRequest(c, Rag.RetrieveRequest(SearchParams(body), embed(body.query).value),
                            search(Rag.RetrieveRequest(SearchParams(body), embed(body.query).value)).value)
    ensures Search(body, embed, search).Success?
    ensures Search(body, embed, search).value.total <= LimitOr5(body.topK)
    ensures forall i :: 0 <= i < |Search(body, embed, search).value.chunks| ==>
      "tenantSlug" in Search(body, embed, search).value.chunks[i].metadata &&
      Search(body, embed, search).value.chunks[i].metadata["tenantSlug"] == Json.JStr(body.tenantSlug)
  {
    Rag.RetrievalStaysInTenant(c, SearchParams(body), embed, search);
  }
}
