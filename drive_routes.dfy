/**
 * The Drive REST routes: request validation, parameter defaults and error
 * classification. Two routers exist side by side: the single router in
 * backend/routes/drive.js, whose auth-error test is broad, and the per-route
 * routers in the backend/routes/drive/ files, whose test is narrow. The service
 * call a handler makes is recorded, and its outcome is a parameter.
 */
module DriveRoutes {
  import opened Wrappers
  import JsText
  import Decimal

  // ---------------------------------------------------------------------
  // Errors and replies
  // ---------------------------------------------------------------------

  /**
   * The fields of a thrown error that the handlers inspect: numeric `code`
   * and `status`, a string `message`, and, when `errors` is an array, the
   * `reason` of each element.
   */
  datatype DriveError = DriveError(
    code: Option<int>, status: Option<int>, message: Option<string>, errors: Option<seq<Option<string>>>)

  /** Which auth-error test a router uses. */
  datatype Classifier =
    | Broad   // backend/routes/drive.js
    | Narrow  // the backend/routes/drive/ files

  predicate MessageIncludes(e: DriveError, sub: string) {
    e.message.Some? && JsText.Includes(e.message.value, sub)
  }

  /**
   * isAuthError of backend/routes/drive.js: a 401 code or status, an
   * `invalid_grant` message, any mention of "token" in any case, or an
   * `authError` reason on the first listed error.
   */
  predicate IsAuthErrorBroad(e: DriveError)
    ensures e.code == Some(401) || e.status == Some(401) ==> IsAuthErrorBroad(e)
    ensures e.errors.Some? && |e.errors.value| > 0 && e.errors.value[0] == Some("authError") ==> IsAuthErrorBroad(e)
    ensures e.message.None? && e.errors.None? ==> (IsAuthErrorBroad(e) <==> e.code == Some(401) || e.status == Some(401))
  {
    e.code == Some(401) || e.status == Some(401)
    || MessageIncludes(e, "invalid_grant")
    || (e.message.Some? && JsText.Includes(JsText.ToLower(e.message.value), "token"))
    || (e.errors.Some? && |e.errors.value| > 0 && e.errors.value[0] == Some("authError"))
  }

  /** isAuthError of the backend/routes/drive/ files: a 401 code or status, or an `invalid_grant` message. */
  predicate IsAuthErrorNarrow(e: DriveError)
    ensures MessageIncludes(e, "invalid_grant") ==> IsAuthErrorNarrow(e)
    ensures e.message.None? ==> (IsAuthErrorNarrow(e) <==> e.code == Some(401) || e.status == Some(401))
  {
    e.code == Some(401) || e.status == Some(401) || MessageIncludes(e, "invalid_grant")
  }

  predicate IsAuthError(c: Classifier, e: DriveError) {
    match c
    case Broad => IsAuthErrorBroad(e)
    case Narrow => IsAuthErrorNarrow(e)
  }

  datatype DriveFile = DriveFile(
    id: string, name: string, mimeType: string, webViewLink: Option<string>, parents: seq<string>)

  datatype FileList = FileList(files: seq<DriveFile>, nextPageToken: Option<string>)

  /** What the awaited service call did. */
  datatype Outcome<T> = Returned(value: T) | Threw(error: DriveError)

  datatype Body =
    | TokenExpired(error: string, message: string, authUrl: string)
    | Message(message: string)
    | Listing(list: FileList)
    | FolderCreated(id: string, name: string, parents: seq<string>)
    | Moved(id: string, parents: seq<string>)
    | Uploaded(id: string, name: string, webViewLink: Option<string>, parents: seq<string>)

  datatype Reply = Reply(status: int, body: Body)

  const AuthErrorPayload: Body :=
    TokenExpired("TokenExpired", "Your Google Drive token has expired. Please reauthorize.", "/auth/google")

  /** handleError / the catch blocks: 401 with the TokenExpired payload for auth errors, else 500. */
  function HandleError(c: Classifier, e: DriveError, fallback: string): (r: Reply)
    ensures r.status == 401 || r.status == 500
    ensures r.status == 401 <==> IsAuthError(c, e)
    ensures r.status == 401 ==> r.body == AuthErrorPayload
    ensures r.status == 500 ==> r.body == Message(fallback)
  {
    if IsAuthError(c, e) then Reply(401, AuthErrorPayload) else Reply(500, Message(fallback))
  }

  // ---------------------------------------------------------------------
  // Requests
  // ---------------------------------------------------------------------

  /** A JSON body field: absent (`undefined`), `null`, or a string. */
  datatype Field = Missing | Null | Str(s: string)

  predicate Truthy(f: Field) {
    f.Str? && f.s != ""
  }

  datatype ServiceCall =
    | ListFilesCall(folderId: string, pageSize: int, pageToken: Option<string>, orderBy: string)
    | CreateFolderCall(name: string, parentId: Field)
    | MoveFileCall(fileId: Option<string>, newParentId: string)   // None: `undefined`
    | UploadFileCall(tempPath: string, originalName: string, mimeType: string, folderId: string)

  /** The service call made (None when validation replied first) and the reply sent. */
  datatype Handled = Handled(call: Option<ServiceCall>, reply: Reply)

  // ---------------------------------------------------------------------
  // GET /files
  // ---------------------------------------------------------------------

  /** The query-string values of a list request (absent parameters are None). */
  datatype ListQuery = ListQuery(
    folderId: Option<string>, pageSize: Option<string>, pageToken: Option<string>, orderBy: Option<string>)

  const DefaultOrderBy: string := "folder,name,modifiedTime desc"

  /** `parseInt(pageSize, 10) || 10`, with the destructuring default 10 for an absent parameter. */
  function PageSize(raw: Option<string>): (n: int)
    ensures n != 0
  {
    match raw
    case None => 10
    case Some(s) =>
      match JsText.ParseInt(s)
      case None => 10
      case Some(v) => if v == 0 then 10 else v
  }

  /** A positive decimal page size is passed on unchanged. */
  lemma PageSizeOfNumeral(n: nat)
    requires n > 0
    ensures PageSize(Some(Decimal.Digits(n))) == n
  {
    JsText.ParseIntOfDigits(n);
  }

  /** Zero and text without leading digits fall back to 10. */
  lemma PageSizeFallback(s: string)
    requires JsText.ParseInt(s) == None || JsText.ParseInt(s) == Some(0)
    ensures PageSize(Some(s)) == 10
  {
  }

  /** The listing call made for a list request. */
  function ListCall(q: ListQuery): (call: ServiceCall)
    ensures call.ListFilesCall?
    ensures call.folderId == if q.folderId.Some? then q.folderId.value else "root"
    ensures call.pageSize == PageSize(q.pageSize) && call.pageSize != 0
    ensures call.pageToken.Some? <==> q.pageToken.Some? && q.pageToken.value != ""
    ensures call.pageToken.Some? ==> call.pageToken == q.pageToken
    ensures call.orderBy != ""
    ensures q.orderBy.Some? && q.orderBy.value != "" ==> call.orderBy == q.orderBy.value
    ensures !(q.orderBy.Some? && q.orderBy.value != "") ==> call.orderBy == DefaultOrderBy
  {
    ListFilesCall(
      if q.folderId.Some? then q.folderId.value else "root",
      PageSize(q.pageSize),
      if q.pageToken.Some? && q.pageToken.value != "" then q.pageToken else None,
      if q.orderBy.Some? && q.orderBy.value != "" then q.orderBy.value else DefaultOrderBy)
  }

  /** The list handler: the service data on success, else the classified error. */
  function ListFiles(c: Classifier, q: ListQuery, outcome: Outcome<FileList>): (h: Handled)
    ensures h.call == Some(ListCall(q))
    ensures h.reply.status == 200 <==> outcome.Returned?
    ensures outcome.Returned? ==> h.reply.body == Listing(outcome.value)
    ensures outcome.Threw? ==> h.reply == HandleError(c, outcome.error, "Failed to list files")
  {
    Handled(Some(ListCall(q)),
      match outcome
      case Returned(data) => Reply(200, Listing(data))
      case Threw(e) => HandleError(c, e, "Failed to list files"))
  }

  // ---------------------------------------------------------------------
  // POST /folder
  // ---------------------------------------------------------------------

  /** `name?.trim()` is truthy. */
  predicate HasFolderName(name: Field) {
    name.Str? && JsText.Trim(name.s) != ""
  }

  function CreateFolder(c: Classifier, name: Field, parentId: Field, outcome: Outcome<DriveFile>): (h: Handled)
    ensures h.call.None? <==> !(name.Str? && !JsText.AllWhitespace(name.s))
    ensures h.call.None? ==> h.reply == Reply(400, Message("Folder name is required"))
    ensures h.call.Some? ==> h.call.value == CreateFolderCall(name.s, if parentId.Missing? then Str("root") else parentId)
    ensures h.reply.status == 200 <==> h.call.Some? && outcome.Returned?
    ensures h.reply.status == 200 ==>
              h.reply.body == FolderCreated(outcome.value.id, outcome.value.name, outcome.value.parents)
    ensures h.call.Some? && outcome.Threw? ==> h.reply == HandleError(c, outcome.error, "Failed to create folder")
  {
    if name.Str? then JsText.TrimEmptyIff(name.s); CreateFolderFor(c, name, parentId, outcome)
    else CreateFolderFor(c, name, parentId, outcome)
  }

  function CreateFolderFor(c: Classifier, name: Field, parentId: Field, outcome: Outcome<DriveFile>): Handled {
    if !HasFolderName(name) then Handled(None, Reply(400, Message("Folder name is required")))
    else
      Handled(Some(CreateFolderCall(name.s, if parentId.Missing? then Str("root") else parentId)),
        match outcome
        case Returned(d) => Reply(200, FolderCreated(d.id, d.name, d.parents))
        case Threw(e) => HandleError(c, e, "Failed to create folder"))
  }

  // ---------------------------------------------------------------------
  // PATCH /file/:id/move
  // ---------------------------------------------------------------------

  /**
   * The `:id` the move handler reads from `req.params`. drive.js declares the
   * parameter on its own route, so the handler sees it. The split move router
   * is created without `mergeParams` and mounted under `/file/:id/move`, so
   * the parameter belongs to the parent router and the handler sees
   * `undefined`.
   */
  function RouteFileId(c: Classifier, urlId: string): Option<string> {
    match c
    case Broad => Some(urlId)
    case Narrow => None
  }

  /**
   * The error the Google API client rejects a `files.get` without a `fileId`
   * with, before any request is sent; the service's `getParents` makes that
   * call first.
   */
  const MissingFileId: DriveError := DriveError(None, None, Some("Missing required parameters: fileId"), None)

  /** The move handler, given the file id it sees. Without one the service call fails. */
  function MoveFileWith(c: Classifier, fileId: Option<string>, newParentId: Field, outcome: Outcome<DriveFile>): Handled {
    if !Truthy(newParentId) then Handled(None, Reply(400, Message("newParentId is required")))
    else
      Handled(Some(MoveFileCall(fileId, newParentId.s)),
        if fileId.None? then HandleError(c, MissingFileId, "Failed to move file")
        else
          match outcome
          case Returned(d) => Reply(200, Moved(d.id, d.parents))
          case Threw(e) => HandleError(c, e, "Failed to move file"))
  }

  /** The move route as written: the split router moves nothing and answers 500. */
  function MoveFile(c: Classifier, urlId: string, newParentId: Field, outcome: Outcome<DriveFile>): (h: Handled)
    ensures h.call.None? <==> !Truthy(newParentId)
    ensures h.call.None? ==> h.reply == Reply(400, Message("newParentId is required"))
    ensures h.call.Some? ==> h.call.value.MoveFileCall? && h.call.value.newParentId == newParentId.s
    ensures h.call.Some? ==> (h.call.value.fileId == Some(urlId) <==> c.Broad?)
    ensures h.call.Some? && c.Narrow? ==> h.call.value.fileId.None? && h.reply == Reply(500, Message("Failed to move file"))
    ensures h.reply.status == 200 <==> h.call.Some? && c.Broad? && outcome.Returned?
    ensures h.reply.status == 200 ==> h.reply.body == Moved(outcome.value.id, outcome.value.parents)
    ensures h.call.Some? && c.Broad? && outcome.Threw? ==> h.reply == HandleError(c, outcome.error, "Failed to move file")
  {
    MissingFileIdReply(c, "Failed to move file");
    MoveFileWith(c, RouteFileId(c, urlId), newParentId, outcome)
  }

  /** The move route with the URL id reaching the handler, as both routers evidently intend. */
  function MoveFileMerged(c: Classifier, urlId: string, newParentId: Field, outcome: Outcome<DriveFile>): (h: Handled)
    ensures h.call.None? <==> !Truthy(newParentId)
    ensures h.call.None? ==> h.reply == Reply(400, Message("newParentId is required"))
    ensures h.call.Some? ==> h.call.value == MoveFileCall(Some(urlId), newParentId.s)
    ensures h.reply.status == 200 <==> h.call.Some? && outcome.Returned?
    ensures h.reply.status == 200 ==> h.reply.body == Moved(outcome.value.id, outcome.value.parents)
    ensures h.call.Some? && outcome.Threw? ==> h.reply == HandleError(c, outcome.error, "Failed to move file")
  {
    MoveFileWith(c, Some(urlId), newParentId, outcome)
  }

  /** The missing-parameter rejection is not an auth error for either test. */
  lemma MissingFileIdNotAuth()
    ensures !IsAuthErrorBroad(MissingFileId) && !IsAuthErrorNarrow(MissingFileId)
  {
    var m := "Missing required parameters: fileId";
    assert forall i :: 0 <= i < |m| ==> m[i] != '_' && m[i] != 'k' && m[i] != 'K' && m[i] != '\U{212A}';
    MessageWithoutTokenNotAuth(m);
  }

  /** Either router answers the missing-parameter rejection with 500 and its own message. */
  lemma MissingFileIdReply(c: Classifier, fallback: string)
    ensures HandleError(c, MissingFileId, fallback) == Reply(500, Message(fallback))
  {
    MissingFileIdNotAuth();
  }

  /** A bare message with neither '_' nor any letter k is not an auth error. */
  lemma MessageWithoutTokenNotAuth(m: string)
    requires forall i :: 0 <= i < |m| ==> m[i] != '_' && m[i] != 'k' && m[i] != 'K' && m[i] != '\U{212A}'
    ensures var e := DriveError(None, None, Some(m), None);
            !IsAuthErrorBroad(e) && !IsAuthErrorNarrow(e)
  {
    NotOccurring(m, "invalid_grant", 7);
    LowerKeepsNoK(m);
    NotOccurring(JsText.ToLower(m), "token", 2);
  }

  /** Lower-casing introduces a 'k' only from 'K' or the Kelvin sign. */
  lemma {:induction false} LowerKeepsNoK(s: string)
    requires 'k' !in s && 'K' !in s && '\U{212A}' !in s
    ensures 'k' !in JsText.ToLower(s)
    decreases |s|
  {
    if s != [] {
      assert s[0] in s;
      assert forall c :: c in s[1..] ==> c in s;
      LowerKeepsNoK(s[1..]);
    }
  }

  /** `sub` does not occur in `s` when one of its characters does not. */
  lemma NotOccurring(s: string, sub: string, k: nat)
    requires k < |sub| && sub[k] !in s
    ensures !JsText.Includes(s, sub)
  {
    forall i | 0 <= i
      ensures !JsText.OccursAt(s, sub, i)
    {
      if i + |sub| <= |s| {
        assert s[i..i + |sub|][k] == s[i + k];
      }
    }
    JsText.IncludesIffOccurs(s, sub);
  }

  /**
   * drive.js moves the file named in the URL; the split router, for the same
   * request, asks the service to move no file and answers 500.
   */
  lemma SplitMoveLosesFileId(urlId: string, newParentId: string, moved: DriveFile)
    requires newParentId != ""
    ensures MoveFile(Broad, urlId, Str(newParentId), Returned(moved)).reply.status == 200
    ensures MoveFile(Broad, urlId, Str(newParentId), Returned(moved)) == MoveFileMerged(Broad, urlId, Str(newParentId), Returned(moved))
    ensures MoveFile(Narrow, urlId, Str(newParentId), Returned(moved))
            == Handled(Some(MoveFileCall(None, newParentId)), Reply(500, Message("Failed to move file")))
  {
  }

  // ---------------------------------------------------------------------
  // POST /upload
  // ---------------------------------------------------------------------

  /** The multipart file multer stored: its temporary path, original name and MIME type. */
  datatype UploadedFile = UploadedFile(path: string, originalName: string, mimeType: string)

  function UploadFile(c: Classifier, file: Option<UploadedFile>, folderId: Field, outcome: Outcome<DriveFile>): (h: Handled)
    ensures h.call.None? <==> file.None?
    ensures file.None? ==> h.reply == Reply(400, Message("file is required"))
    ensures file.Some? ==> h.call.value == UploadFileCall(file.value.path, file.value.originalName,
                                                          file.value.mimeType, if Truthy(folderId) then folderId.s else "root")
    ensures h.reply.status == 200 <==> file.Some? && outcome.Returned?
    ensures h.reply.status == 200 ==>
              h.reply.body == Uploaded(outcome.value.id, outcome.value.name, outcome.value.webViewLink, outcome.value.parents)
    ensures file.Some? && outcome.Threw? ==> h.reply == HandleError(c, outcome.error, "Upload failed")
  {
    match file
    case None => Handled(None, Reply(400, Message("file is required")))
    case Some(f) =>
      Handled(Some(UploadFileCall(f.path, f.originalName, f.mimeType, if Truthy(folderId) then folderId.s else "root")),
        match outcome
        case Returned(d) => Reply(200, Uploaded(d.id, d.name, d.webViewLink, d.parents))
        case Threw(e) => HandleError(c, e, "Upload failed"))
  }

  /** The uploads directory multer writes temporary files into. */
  class UploadsDir {
    var files: set<string>

    constructor (initial: set<string>)
      ensures files == initial
    {
      files := initial;
    }

    /** `try { fs.unlinkSync(path) } catch {}`: a refused unlink is swallowed and leaves the file. */
    method SafeUnlink(path: string, refused: bool)
      modifies this
      ensures files == if refused then old(files) else old(files) - {path}
    {
      if !refused {
        files := files - {path};
      }
    }

    /**
     * The upload handler: without a file it replies 400 and touches nothing;
     * otherwise the temporary file is unlinked in `finally`, after success
     * and after failure alike, and the reply does not depend on the unlink.
     */
    method HandleUpload(c: Classifier, file: Option<UploadedFile>, folderId: Field,
                        outcome: Outcome<DriveFile>, unlinkRefused: bool) returns (h: Handled)
      modifies this
      ensures h == UploadFile(c, file, folderId, outcome)
      ensures file.None? ==> files == old(files)
      ensures file.Some? ==> files == if unlinkRefused then old(files) else old(files) - {file.value.path}
    {
      if file.None? {
        return Handled(None, Reply(400, Message("file is required")));
      }
      var tempPath := file.value.path;
      h := UploadFile(c, file, folderId, outcome);
      SafeUnlink(tempPath, unlinkRefused);
    }
  }

  // ---------------------------------------------------------------------
  // Properties relating the two routers
  // ---------------------------------------------------------------------

  /** Every error the narrow test accepts, the broad test accepts too. */
  lemma NarrowImpliesBroad(e: DriveError)
    ensures IsAuthErrorNarrow(e) ==> IsAuthErrorBroad(e)
  {
  }

  lemma {:induction false} NotIncludedWhenLonger(s: string, sub: string)
    requires |sub| > |s|
    ensures !JsText.Includes(s, sub)
    decreases |s|
  {
    if s != [] {
      NotIncludedWhenLonger(s[1..], sub);
    }
  }

  /** The message "Token" is an auth error for drive.js and not for the split routers. */
  lemma TokenMessageSplitsClassifiers()
    ensures var e := DriveError(None, None, Some("Token"), None);
            IsAuthErrorBroad(e) && !IsAuthErrorNarrow(e)
  {
    var m := "Token";
    NotIncludedWhenLonger(m, "invalid_grant");
    assert JsText.ToLower(m) == "token";
    assert JsText.OccursAt("token", "token", 0);
    JsText.IncludesIffOccurs("token", "token");
  }

  /** The two routers' error replies agree exactly when their classifiers agree. */
  lemma HandleErrorAgreement(e: DriveError, fallback: string)
    ensures HandleError(Broad, e, fallback) == HandleError(Narrow, e, fallback)
            <==> (IsAuthErrorBroad(e) <==> IsAuthErrorNarrow(e))
  {
  }

  /**
   * For every request, drive.js and the split routers make the same service
   * call and send the same reply, unless the service threw an error the two
   * classifiers disagree on; the move route agrees only once the URL id
   * reaches the split handler, and as written the two agree on a move
   * exactly when it is refused for a missing `newParentId`.
   */
  lemma RoutersDifferOnlyInClassification(
    q: ListQuery, listed: Outcome<FileList>, name: Field, parentId: Field, fileId: string, newParentId: Field,
    file: Option<UploadedFile>, folderId: Field, result: Outcome<DriveFile>)
    requires listed.Threw? ==> (IsAuthErrorBroad(listed.error) <==> IsAuthErrorNarrow(listed.error))
    requires result.Threw? ==> (IsAuthErrorBroad(result.error) <==> IsAuthErrorNarrow(result.error))
    ensures ListFiles(Broad, q, listed) == ListFiles(Narrow, q, listed)
    ensures CreateFolder(Broad, name, parentId, result) == CreateFolder(Narrow, name, parentId, result)
    ensures MoveFileMerged(Broad, fileId, newParentId, result) == MoveFileMerged(Narrow, fileId, newParentId, result)
    ensures MoveFile(Broad, fileId, newParentId, result) == MoveFile(Narrow, fileId, newParentId, result)
            <==> !Truthy(newParentId)
    ensures UploadFile(Broad, file, folderId, result) == UploadFile(Narrow, file, folderId, result)
  {
  }

  /** A folder id of "" is kept by the list route but replaced by "root" in the upload route. */
  lemma EmptyFolderIdDefaults(file: UploadedFile, outcome: Outcome<DriveFile>, c: Classifier)
    ensures ListCall(ListQuery(Some(""), None, None, None)).folderId == ""
    ensures UploadFile(c, Some(file), Str(""), outcome).call.value.folderId == "root"
  {
  }

  /** An empty query lists "root", 10 per page, from the first page, in the default order. */
  lemma ListDefaults()
    ensures ListCall(ListQuery(None, None, None, None)) == ListFilesCall("root", 10, None, DefaultOrderBy)
  {
  }
}
