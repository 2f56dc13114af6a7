# gdrive-app core, modelled in Dafny

This project models the logic of gdrive-app, a web front end for Google Drive (an Express backend and a React frontend). It covers four parts.

- **Duplicate-name resolver** (`unique_name.dfy`). `getUniqueFileName` probes the folder for `desired`, then `Copy of desired`, then `Copy (2) of desired`, and so on. It returns the first name that no sibling has. The names already in use are a finite set. Each probe is recorded as the folder and the name asked for. The loop's membership test stands for the corrected query, whose name literal reads back as exactly the name (`ProbeQuery`). The query as written escapes only `'`, and a name with a backslash is then read back as another name (`ProbeQueryAsWritten`, see Findings).
- **Archive entry planner** (`archive.dfy`). The folder download walks the folder tree in pre-order. It emits one archive entry `(path, fileId)` for each non-folder file, with `path ? path/name : name` as the entry path. The batch download adds top-level files under their bare name, delegates folders to the folder walk, and finalizes once. The archive is a class: `Append` and `Finalize` change it in place. The Drive tree is a `Node` value, and each folder's children are its first listing page.
- **REST routes** (`drive_routes.dfy`). Two routers are modelled:
  - the single router in `backend/routes/drive.js`, with a broad auth-error test. This is the router both servers mount (backend/server.js:35 and backend/app.js:37);
  - the per-route routers in `backend/routes/drive/`, with a narrow test. No file in the repository mounts them, and their `index.js` expects a drive service where the servers pass an OAuth client, so their behaviour is latent.

  Each handler is a function of the request fields and of the service call's outcome. It returns the service call it made, if any, and the reply. Upload temp-file cleanup is a method on an `UploadsDir` class. The JavaScript string built-ins the routes rely on are in `jstext.dfy`: `includes`, `toLowerCase`, `trim` and `parseInt(…, 10)`. Decimal numerals are in `decimal.dfy`.
- **Frontend state machines.** Each is a class whose fields are the React state.
  - `folder_nav.dfy`: the folder stack and the current folder.
  - `toolbar.dfy`: the breadcrumb trail and what a click on a crumb does.
  - `drive_files.dfy`: the `useDriveFiles` hook, with sort, paging and its page-token cache.
  - `files_container.dfy`: the earlier `DriveFilesContainer`.
  - `batch_action.dfy`: the multi-select list.

  A fetch has two steps:
  - `FetchFiles` records the request and sets `loading`;
  - `CompleteFetch` applies the outcome of the awaited request, which is a parameter.

Four behaviours of the code are easy to miss:
- The folder walk reads only the first page of each listing. No `pageToken` is ever sent; see `EachFolderListedOnceWithoutToken`.
- The batch download passes the folder's name as a fourth argument that `streamFolderAsZip` does not take. Nested folder entries are therefore not placed under a folder-name prefix: a folder becomes a nested archive of its own entries.
- `DriveFilesContainer` requests `/api/drive/list`, which neither router serves. The model keeps the outcome of that request as a parameter.
- The split move router is created without `mergeParams` and mounted under `/file/:id/move`, so its handler reads `req.params.id` as `undefined`. The service's first call, `files.get` without a `fileId`, is then rejected by the Google API client with "Missing required parameters: fileId", which neither auth test accepts: if the split routers were mounted, they would answer every valid move with 500 (`MoveFile`, see Findings). The servers mount drive.js, which moves the file.

## Model

| member | source | states |
|---|---|---|
| UniqueName.Candidate | backend/helpers/duplicateNameHelper.js:13-33 | the name probed after k collisions: the desired name itself at 0, a name at least "Copy of " longer afterwards |
| UniqueName.CandidateBuiltFromOriginal | backend/helpers/duplicateNameHelper.js:28-33 | every renamed candidate is a proper extension of the original desired name and ends in it, rather than in the previous candidate |
| UniqueName.NeverCopyOne | backend/helpers/duplicateNameHelper.js:29-33 | no candidate is ever "Copy (1) of …": counter 1 gives "Copy of …" |
| UniqueName.CandidatesDistinct | backend/helpers/duplicateNameHelper.js:13-33 | the candidates probed on different iterations are different names |
| UniqueName.CollisionsBounded | backend/helpers/duplicateNameHelper.js:16-34 | if the first k candidates are all taken then k is at most the number of names in use, so the loop ends |
| UniqueName.EscapeQuotes | backend/helpers/duplicateNameHelper.js:18 | the escaping as written, `'` to `\'`; it never shortens a name |
| UniqueName.EscapeQuotesKeepsPlainNames | backend/helpers/duplicateNameHelper.js:18 | a name without `'` passes the as-written escaping unchanged |
| UniqueName.EscapedQuotesArePreceded | backend/helpers/duplicateNameHelper.js:18 | in the as-written escaping every quote is preceded by a backslash |
| UniqueName.BackslashBreaksLiteral | backend/helpers/duplicateNameHelper.js:18 | the as-written escaping leaves the name `\` unchanged, and the quoted literal it builds never ends |
| UniqueName.EscapeLiteral | backend/helpers/duplicateNameHelper.js:18 | the corrected escaping, of `\` as well as `'`; it never shortens a name |
| UniqueName.EscapeLiteralKeepsPlainNames | backend/helpers/duplicateNameHelper.js:18 | a name without `'` or `\` passes the corrected escaping unchanged |
| UniqueName.LiteralRoundTrip | backend/helpers/duplicateNameHelper.js:18 | reading the corrected literal back yields exactly the name, and the rest of the query is left unread |
| UniqueName.ProbeQueryNamesCandidate | backend/helpers/duplicateNameHelper.js:17-22 | with the corrected escaping, each probe's query text is the parent clause followed by a name literal that reads back as exactly the name probed (the query as written does not, see `BackslashNameProbedAsOther`) |
| UniqueName.BackslashSwallowed | backend/helpers/duplicateNameHelper.js:18 | as written, a backslash between two ordinary characters is read as an escape: the literal for `x\y` reads back as `xy` |
| UniqueName.BackslashNameProbedAsOther | backend/helpers/duplicateNameHelper.js:17-22 | as written, the probe query for a name `x\y` asks the folder about `xy`, a different name, so a folder holding `x\y` but not `xy` reports the name free |
| UniqueName.ProbesInOrder | backend/helpers/duplicateNameHelper.js:16-33 | the j-th probe sent asks the parent folder for the j-th candidate |
| UniqueName.GetUniqueFileName | backend/helpers/duplicateNameHelper.js:12-35 | the result is not in use; it is the candidate that follows exactly the taken ones; one probe is sent per iteration, one for each candidate in order up to the result. The membership test is the one the corrected query performs |
| UniqueName.ResultIsLeastFree | backend/helpers/duplicateNameHelper.js:16-34 | only one counter value can end the loop: the least free candidate is the only answer |
| UniqueName.DocCandidates | backend/helpers/duplicateNameHelper.js:13-33 | the candidates for "doc.txt" are "doc.txt", "Copy of doc.txt", "Copy (2) of doc.txt" |
| ArchivePlan.EntryPathShape | backend/helpers/downloadHelper.js:43 | an empty prefix is falsy and gives the bare name; any other prefix gives prefix, `/`, name |
| ArchivePlan.WalkAppendsEachFileOnce | backend/helpers/downloadHelper.js:34-52 | the walk emits one file entry per non-folder file, in pre-order, each file exactly once, and no other kind of entry |
| ArchivePlan.EachFolderListedOnceWithoutToken | backend/helpers/downloadHelper.js:35-45 | exactly one listing call per folder visited, in pre-order, none with a page token |
| ArchivePlan.WalkUnderPrefix | backend/helpers/downloadHelper.js:43-46 | walking under a non-empty path gives the top-level walk's entries with `path/` put in front of each |
| ArchivePlan.UnderOfUnder | backend/helpers/downloadHelper.js:43 | nesting path prefixes composes: `a/b` in front equals `b` and then `a` in front |
| ArchivePlan.PreOrderExample | backend/helpers/downloadHelper.js:42-51 | the tree {a, b, c/{d}} gives entries a, b, c/d |
| ArchivePlan.Archive.constructor | backend/helpers/downloadHelper.js:25 | a new archive is empty and open |
| ArchivePlan.Archive.Append | backend/helpers/downloadHelper.js:49 | appending to an open archive adds the entry at the end |
| ArchivePlan.Archive.Finalize | backend/helpers/downloadHelper.js:55 | finalizing closes the archive and keeps its entries |
| ArchivePlan.AddFolderToArchive | backend/helpers/downloadHelper.js:34-52 | the recursive walk appends exactly the folder's planned entries and makes exactly its planned listing calls |
| ArchivePlan.StreamFolderAsZip | backend/helpers/downloadHelper.js:24-56 | the folder download gives a finalized archive holding the top-level walk's entries |
| ArchivePlan.BatchEntryPerId | backend/helpers/batchDownloadHelper.js:9-26 | one entry per id, in id order: a file under its bare name, a folder as a nested archive of its own walk |
| ArchivePlan.BatchConcat | backend/helpers/batchDownloadHelper.js:9-26 | the plan for two id lists concatenated is the two plans concatenated |
| ArchivePlan.BatchSnoc | backend/helpers/batchDownloadHelper.js:9-25 | processing one more known id appends exactly that id's contribution |
| ArchivePlan.AppendId | backend/helpers/batchDownloadHelper.js:16-25 | a folder id appends its own archive as one nested entry; a file id appends one entry under its bare name |
| ArchivePlan.StreamMultipleFilesAndFolders | backend/helpers/batchDownloadHelper.js:4-29 | success iff every id is known; then the archive is finalized once with the batch plan; otherwise it stops at the first unknown id, unfinalized, holding the entries of the ids before it |
| ArchivePlan.FileAndFolderExample | backend/helpers/batchDownloadHelper.js:16-25 | a file and a folder give the bare file name and a nested archive whose paths carry no folder-name prefix |
| JsText.IncludesIffOccurs | backend/routes/drive.js:20 | `includes` holds iff the substring occurs at some index |
| JsText.TrimEmptyIff | backend/routes/drive.js:100 | trimming gives the empty string iff every character is whitespace |
| JsText.ParseIntOfDigits | backend/routes/drive.js:86 | `parseInt` of the decimal numeral of n is n |
| JsText.ParseIntNaN | backend/routes/drive.js:86 | text without a digit after the leading whitespace and optional sign parses to NaN |
| DriveRoutes.IsAuthErrorBroad | backend/routes/drive.js:17-22 | a 401 code or status, or an `authError` first reason, is an auth error; with no message and no `errors` array only a 401 is |
| DriveRoutes.IsAuthErrorNarrow | backend/routes/drive/moveFile.js:5 | an `invalid_grant` message is an auth error; with no message only a 401 is |
| DriveRoutes.HandleError | backend/routes/drive.js:17-34 | 401 with the TokenExpired payload iff the router's test calls the error an auth error, else 500 with the fallback message |
| DriveRoutes.PageSize | backend/routes/drive.js:83-86 | the page size passed on is never 0 |
| DriveRoutes.PageSizeOfNumeral | backend/routes/drive.js:86 | a positive decimal page size is passed on unchanged |
| DriveRoutes.PageSizeFallback | backend/routes/drive.js:86 | NaN and 0 become 10 |
| DriveRoutes.ListCall | backend/routes/drive.js:83-89 | folder defaults to "root" only when absent; the page size is `PageSize` of the parameter, never 0; an empty token becomes none; an empty or absent order becomes exactly the default order, any other is passed on |
| DriveRoutes.ListDefaults | backend/routes/drive/listFiles.js:13-19 | an empty query lists "root", 10 per page, from the first page, in the default order |
| DriveRoutes.ListFiles | backend/routes/drive/listFiles.js:11-26 | the listing call is always made; 200 with the data iff it returned, else the classified error reply |
| DriveRoutes.CreateFolder | backend/routes/drive/createFolder.js:11-22 | 400 without a call iff the name is absent, null or all whitespace; else the untrimmed name is created under the parent ("root" only when absent); 200 with id, name and parents on success |
| DriveRoutes.MoveFile | backend/routes/drive/moveFile.js:7-19 | as written: 400 without a call iff newParentId is falsy; else drive.js moves the URL's file (200 with id and parents on success, else the classified error), while the split router calls the service without a file id and always replies 500 |
| DriveRoutes.MoveFileMerged | backend/routes/drive.js:119-128 | corrected, with the URL id reaching the handler: 400 without a call iff newParentId is falsy; else the file named in the URL is moved; 200 with id and parents on success, else the classified error |
| DriveRoutes.MissingFileIdNotAuth | backend/services/googleDriveService.js:63-73 | the client's rejection of a `files.get` without `fileId` is an auth error for neither test |
| DriveRoutes.SplitMoveLosesFileId | backend/routes/drive/index.js:23 | for a valid move that the service carries out, drive.js moves the URL's file and replies 200, while the split router asks to move no file and replies 500 |
| DriveRoutes.UploadFile | backend/routes/drive/uploadFile.js:21-46 | 400 without a call iff no file came; else the upload goes to the given folder, or to "root" when that is falsy; 200 with id, name, link and parents on success |
| DriveRoutes.UploadsDir.SafeUnlink | backend/routes/drive.js:36-38 | the file is removed unless removal fails, and a failure is swallowed |
| DriveRoutes.UploadsDir.HandleUpload | backend/routes/drive.js:55-78 | the reply is the upload handler's; the temporary file is unlinked after success and after failure alike; without a file nothing is touched |
| DriveRoutes.NarrowImpliesBroad | backend/routes/drive/listFiles.js:9 | every error the narrow test accepts, the broad test accepts |
| DriveRoutes.TokenMessageSplitsClassifiers | backend/routes/drive.js:21 | the message "Token" is an auth error for the single router and not for the split routers |
| DriveRoutes.HandleErrorAgreement | backend/routes/drive.js:30-34 | the two routers' error replies agree iff their tests agree |
| DriveRoutes.RoutersDifferOnlyInClassification | backend/routes/drive.js:55-128 | for every request the two routers make the same call and send the same reply, unless the service threw an error their tests disagree on; for the move route this holds only with the URL id reaching both handlers, and as written the two agree on a move iff it is refused for a falsy newParentId |
| DriveRoutes.EmptyFolderIdDefaults | backend/routes/drive/uploadFile.js:26 | an empty folder id is kept by the list route but becomes "root" in the upload route |
| FolderNav.CurrentFolder.constructor | frontend/src/context/CurrentFolderContext.jsx:7-8 | the navigation starts at "My Drive" with an empty stack |
| FolderNav.CurrentFolder.GoToFolder | frontend/src/context/CurrentFolderContext.jsx:10-13 | the folder left behind goes on top of the stack and the new folder becomes current; the stack always starts at the root |
| FolderNav.CurrentFolder.GoBack | frontend/src/context/CurrentFolderContext.jsx:15-20 | with an empty stack nothing changes; else the top entry becomes current and the stack shrinks by one |
| FolderNav.CurrentFolder.GoToBreadcrumb | frontend/src/context/CurrentFolderContext.jsx:22-27 | the stack entry at the index becomes current and the stack is cut to the entries below it |
| FolderNav.GoToFolderThenBack | frontend/src/context/CurrentFolderContext.jsx:10-20 | opening a folder and going back restores the stack and the current folder |
| Toolbar.BreadcrumbPath | frontend/src/components/DriveToolbar.jsx:14-15 | the trail starts at the root; at the root it is that crumb alone; else it is root, the stack and the current folder, two longer than the stack |
| Toolbar.ShowBack | frontend/src/components/DriveToolbar.jsx:26 | the Back button shows in every folder other than the root, and not at the root with an empty stack |
| Toolbar.ShowBackIffStackNonEmpty | frontend/src/components/DriveToolbar.jsx:26 | in every reachable state the Back button shows iff the stack is non-empty |
| Toolbar.CrumbClickAsWritten | frontend/src/components/DriveToolbar.jsx:40 | as written: the last crumb does nothing, any other hands its own path index to the navigation |
| Toolbar.CrumbClickOffByOne | frontend/src/components/DriveToolbar.jsx:14-40 | with stack [root, A] and current B the trail repeats the root; the parent crumb hands over an index past the stack, and the second crumb opens A |
| Toolbar.CrumbTarget | frontend/src/components/DriveToolbar.jsx:40 | corrected: crumb k > 0 maps to stack index k-1, the first crumb to 0, the last to nothing |
| Toolbar.CrumbTargetInStack | frontend/src/components/DriveToolbar.jsx:32-41 | in every reachable state each clickable crumb maps to a stack entry showing that crumb's folder |
| Toolbar.ClickCrumb | frontend/src/components/DriveToolbar.jsx:38-41 | a click on the last crumb changes nothing; a click on any other opens the folder shown on it and cuts the stack to the entries below that folder's stack index |
| DriveFilesHook.SortAfter | frontend/src/hooks/useDriveFiles.js:79-84 | the clicked column becomes the sort column; the same column flips the order; a new column starts ascending; the sort always changes |
| DriveFilesHook.SortTwice | frontend/src/hooks/useDriveFiles.js:79-84 | two clicks on the sort column restore its order; two on a new column leave it descending |
| DriveFilesHook.TruthyToken | frontend/src/hooks/useDriveFiles.js:26 | a token is sent iff it is present and non-empty |
| DriveFilesHook.ErrorText | frontend/src/hooks/useDriveFiles.js:34-44 | for 401 with TokenExpired: the server's message when it is non-empty, else exactly the default expiry text; otherwise the generic text; never empty |
| DriveFilesHook.ListFailureShown | frontend/src/hooks/useDriveFiles.js:34-44 | a list request failing on the server shows the expiry text iff the router classified the error as an auth error |
| DriveFilesHook.RequestReachesRoute | frontend/src/hooks/useDriveFiles.js:25-28 | a request with a positive page size and no empty token makes the route list exactly that folder, size, page and order |
| DriveFilesHook.DriveFiles.constructor | frontend/src/hooks/useDriveFiles.js:8-18 | initial state: modifiedTime descending, page 0, token cache holding only the first page, no next token, no error |
| DriveFilesHook.DriveFiles.RequestFor | frontend/src/hooks/useDriveFiles.js:25-26 | the request carries the page size, "orderBy order", the folder, and the token only when truthy |
| DriveFilesHook.DriveFiles.FetchFiles | frontend/src/hooks/useDriveFiles.js:21-28 | starting a fetch sets loading, clears the error and sends the request |
| DriveFilesHook.DriveFiles.CompleteFetch | frontend/src/hooks/useDriveFiles.js:30-48 | success shows the files (or none) and the truthy next token; failure clears both and sets the error text; loading ends on every path |
| DriveFilesHook.DriveFiles.ResetEffect | frontend/src/hooks/useDriveFiles.js:53-57 | the effect returns to page 0, resets the token cache, and fetches the first page without a token |
| DriveFilesHook.DriveFiles.ChangeFolder | frontend/src/hooks/useDriveFiles.js:50-57 | the same folder id changes no field; a new id reruns the effect for that folder: page 0, the token cache reset, loading on, the error cleared, one request without a token, files, sort, size and next token kept |
| DriveFilesHook.DriveFiles.BackwardToken | frontend/src/hooks/useDriveFiles.js:67-68 | the cached token of the target page if it is truthy, else no token |
| DriveFilesHook.DriveFiles.ForwardTokenCached | frontend/src/hooks/useDriveFiles.js:63-68 | a page reached forward is later fetched backward with the same token |
| DriveFilesHook.DriveFiles.HandlePageChange | frontend/src/hooks/useDriveFiles.js:59-71 | forward needs a next token, fetches with it and caches it under the new page; backward fetches with the cached token and keeps the cache; both set loading and clear the error; otherwise nothing changes; page 0 is always fetched without a token; files and the next token are kept until the fetch completes |
| DriveFilesHook.DriveFiles.HandleRowsPerPageChange | frontend/src/hooks/useDriveFiles.js:73-77 | the parsed size is stored and paging resets; a changed size refetches the first page (loading on, error cleared); an unchanged size sends nothing and keeps loading and the error; files and the next token of the page shown before are kept either way, so page 0 can show with a stale next token |
| DriveFilesHook.DriveFiles.HandleSortChange | frontend/src/hooks/useDriveFiles.js:79-87 | the sort becomes SortAfter, paging resets, and the first page is refetched in the new order with loading on and the error cleared; files and the next token are kept until the fetch completes |
| FilesContainer.Container.constructor | frontend/src/components/DriveFilesContainer.jsx:11-22 | initial state: modifiedTime descending, 10 rows, page 0, no next token |
| FilesContainer.Container.RequestFor | frontend/src/components/DriveFilesContainer.jsx:28-35 | the token parameter is deleted unless truthy |
| FilesContainer.Container.FetchFiles | frontend/src/components/DriveFilesContainer.jsx:25-37 | starting a fetch sets loading and sends the request |
| FilesContainer.Container.CompleteFetch | frontend/src/components/DriveFilesContainer.jsx:38-48 | success takes `files` as sent and the truthy next token; failure clears both; loading ends on every path |
| FilesContainer.Container.ResetEffect | frontend/src/components/DriveFilesContainer.jsx:51-54 | the effect returns to page 0 and fetches the first page |
| FilesContainer.Container.HandlePageChange | frontend/src/components/DriveFilesContainer.jsx:57-69 | forward as in the hook; any backward move goes to page 0 and fetches without a token, whatever page was asked for; both set loading; files and the next token are kept |
| FilesContainer.Container.HandleRowsPerPageChange | frontend/src/components/DriveFilesContainer.jsx:71-73 | a different size reruns the effect (page 0, loading on, one request without a token); the same size changes nothing else; files and the next token are kept |
| FilesContainer.Container.HandleSortChange | frontend/src/components/DriveFilesContainer.jsx:75-82 | the sort becomes SortAfter and the effect refetches page 0 with loading on; files and the next token are kept |
| BatchAction.Without | frontend/src/hooks/useBatchAction.js:9 | the id no longer occurs, and nothing new appears |
| BatchAction.WithoutKeepsOthers | frontend/src/hooks/useBatchAction.js:9 | every other id keeps its number of occurrences; the removed one has none |
| BatchAction.WithoutConcat | frontend/src/hooks/useBatchAction.js:9 | removal distributes over concatenation, so the others keep their order |
| BatchAction.WithoutAbsent | frontend/src/hooks/useBatchAction.js:9 | removing an id that is not selected changes nothing |
| BatchAction.Selection.constructor | frontend/src/hooks/useBatchAction.js:5 | the selection starts empty |
| BatchAction.Selection.IsSelected | frontend/src/hooks/useBatchAction.js:14 | an id is selected iff it occurs at least once in the list |
| BatchAction.Selection.ToggleItem | frontend/src/hooks/useBatchAction.js:7-10 | ticking appends even a duplicate; unticking removes every occurrence; afterwards the id is selected iff ticked, and no other id changes status |
| BatchAction.Selection.ClearSelection | frontend/src/hooks/useBatchAction.js:12-14 | the selection is empty and no id is selected |

## Findings

| source | as written | input that shows it | evidently intended | confidence | as-written member | corrected member |
|---|---|---|---|---|---|---|
| frontend/src/components/DriveToolbar.jsx:15,40 | the crumb trail puts the root in front of a stack that already starts with the root, and a click passes its trail index to `goToBreadcrumb`, which indexes the stack | stack [My Drive, A], current B: the trail is My Drive, My Drive, A, B; clicking A passes 2, past the end of the stack, and `currentFolder` becomes undefined; clicking the second My Drive opens A | a click opens the folder shown on the crumb: trail index k > 0 is stack index k-1 | medium, not executed (the toolbar has no visible caller) | Toolbar.CrumbClickAsWritten (Toolbar.CrumbClickOffByOne) | Toolbar.CrumbTarget (Toolbar.CrumbTargetInStack, Toolbar.ClickCrumb) |
| backend/helpers/duplicateNameHelper.js:18 | only `'` is escaped in the name literal of the probe query | the name `\`: the literal becomes `'\'`, whose closing quote is escaped, so the literal never ends; the name `a\b`: the literal reads back as `ab`, so the folder is asked about `ab` and `a\b` can be returned while in use | escape `\` as well as `'`, so the literal reads back as the name | high, not executed | UniqueName.EscapeQuotes (UniqueName.BackslashBreaksLiteral, UniqueName.BackslashNameProbedAsOther) | UniqueName.EscapeLiteral (UniqueName.LiteralRoundTrip, used by UniqueName.GetUniqueFileName) |
| backend/routes/drive/index.js:23 | the split move router is mounted under `/file/:id/move` but created without `mergeParams`, so `req.params.id` in backend/routes/drive/moveFile.js:12 is `undefined` | with the split routers mounted, any PATCH `/file/F/move` with body `{newParentId: "P"}`: the service gets no file id, `files.get` is rejected for the missing parameter, and the reply is 500 "Failed to move file" | the file named in the URL is moved, as drive.js does | high, not executed (latent: no file in the repository mounts backend/routes/drive/; the servers load drive.js) | DriveRoutes.MoveFile (DriveRoutes.SplitMoveLosesFileId) | DriveRoutes.MoveFileMerged (DriveRoutes.RoutersDifferOnlyInClassification) |

## Left out

- Network, Drive and OAuth I/O. Every service call is a recorded value whose outcome is a parameter. googleDriveService.js is not part of this model beyond the first call of its `moveFile`; the OAuth and token modules and server wiring are not part of this model.
- The folder tree of the download is a `Node` value, so it is finite and acyclic and the walk ends by construction. Drive does not forbid a folder graph with a cycle, and the source's recursion has no guard against one.
- Which router serves requests. backend/server.js:35 and backend/app.js:37 load `./routes/drive`, which Node resolves to drive.js before `drive/index.js`, so only drive.js is reachable. The split routers are modelled side by side as an alternative wiring, and everything the model proves about them holds only if they are mounted.
- The `test`, delete, metadata and download routes. The split delete, metadata and download routers lose the URL id in the same way as the move router. Their only logic is the error classification that is modelled for the other routes.
- Byte streams, `pipe`, ZIP compression and the archiver's error events. Archive entries are abstract `(path, fileId)` pairs. A folder inside a batch is a nested archive, because what the inner archiver writes into the outer one depends on archiver internals.
- Failures of a listing inside the folder walk, and of the file-content fetch. Such a failure rejects the download and leaves a half-written stream. Only the batch's metadata lookup failure is modelled.
- Logging through `console.error` and `console.warn`.
- Request fields that are not strings, such as numbers, arrays or objects in the JSON body or query string. `name?.trim` then throws a TypeError into the catch block, which the model does not follow.
- JsText.ParseInt: the result is the exact integer, without the floating-point rounding JavaScript applies to very long digit strings.
- JsText.ToLower: only ASCII letters, the Kelvin sign and U+0130 are lowered. Those are the only characters whose lower-case form can create the text "token".
- Concurrency between fetches. Overlapping requests of the frontend can complete in any order. `CompleteFetch` applies whichever outcome arrives, without tying it to the request that produced it.
- React rendering. An effect is modelled as the method its handler triggers: the handlers call `ResetEffect` when they change one of the effect's dependencies.
- FolderNav.CurrentFolder.GoToBreadcrumb: requires an index inside the stack. Outside it the source sets the current folder to `undefined`, and the toolbar then fails when it reads `currentFolder.id`.
- DriveFilesHook.DriveFiles.HandlePageChange: requires a page index of at least 0. The MUI table pagination only produces such indices.
- `formatFileSize`, the paste handler of the toolbar, and the presentational components.
