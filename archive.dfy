/**
 * Folder and batch download planning (backend/helpers/downloadHelper.js and
 * backend/helpers/batchDownloadHelper.js). The remote tree is a value; the
 * ZIP archiver is an object that records the entries appended to it, each
 * entry being an archive path and the id of the file whose byte stream is
 * appended. Compression and the bytes themselves are not modelled.
 */
module ArchivePlan {
  import opened Wrappers

  const FolderMimeType: string := "application/vnd.google-apps.folder"

  /**
   * A remote node with the children that ONE listing call returns for it:
   * the walk never asks for a second page, so later pages do not exist here.
   */
  datatype Node = Node(id: string, name: string, mimeType: string, children: seq<Node>)

  predicate IsFolder(n: Node) {
    n.mimeType == FolderMimeType
  }

  /**
   * What the archiver receives: an appended file stream under a path, or
   * (in a batch) the byte stream of a separately built and finalized folder
   * archive, piped in; `inner` is the entry list of that inner archive.
   */
  datatype Entry = FileEntry(path: string, fileId: string) | NestedZip(folderId: string, inner: seq<Entry>)

  /** One listing request of the walk: a folder id and the page token sent (never one). */
  datatype ListCall = ListCall(folderId: string, pageToken: Option<string>)

  /** `path ? path/name : name` (an empty prefix is falsy). */
  function EntryPath(prefix: string, name: string): string {
    if prefix == "" then name else prefix + "/" + name
  }

  /** An empty prefix gives the bare name; any other gives the prefix, a slash, then the name. */
  lemma EntryPathShape(prefix: string, name: string)
    ensures prefix == "" ==> EntryPath(prefix, name) == name
    ensures prefix != "" ==> var p := EntryPath(prefix, name);
              && |p| == |prefix| + 1 + |name|
              && p[..|prefix|] == prefix && p[|prefix|] == '/' && p[|prefix| + 1..] == name
  {
  }

  /** The entries the walk appends for the first `k` listed children of `folder`, under `prefix`. */
  function ListingEntries(folder: Node, k: nat, prefix: string): seq<Entry>
    requires k <= |folder.children|
    decreases folder, k
  {
    if k == 0 then []
    else
      var c := folder.children[k - 1];
      var p := EntryPath(prefix, c.name);
      ListingEntries(folder, k - 1, prefix)
        + (if IsFolder(c) then ListingEntries(c, |c.children|, p) else [FileEntry(p, c.id)])
  }

  /** All entries of a folder's walk under `prefix`. */
  function FolderEntries(folder: Node, prefix: string): seq<Entry> {
    ListingEntries(folder, |folder.children|, prefix)
  }

  /** The list calls of the walk over the first `k` children: the folder's own, then each sub-walk's. */
  function ListingCalls(folder: Node, k: nat): seq<ListCall>
    requires k <= |folder.children|
    decreases folder, k
  {
    if k == 0 then [ListCall(folder.id, None)]
    else
      var c := folder.children[k - 1];
      ListingCalls(folder, k - 1) + (if IsFolder(c) then ListingCalls(c, |c.children|) else [])
  }

  function FolderCalls(folder: Node): seq<ListCall> {
    ListingCalls(folder, |folder.children|)
  }

  // ---------------------------------------------------------------------
  // Reference definitions and properties of the walk
  // ---------------------------------------------------------------------

  /** Ids of the non-folder descendants among the first `k` children, depth-first, in listing order. */
  function FileIds(folder: Node, k: nat): seq<string>
    requires k <= |folder.children|
    decreases folder, k
  {
    if k == 0 then []
    else
      var c := folder.children[k - 1];
      FileIds(folder, k - 1) + (if IsFolder(c) then FileIds(c, |c.children|) else [c.id])
  }

  /** Ids of the folder nodes visited: the folder itself, then its sub-folders depth-first. */
  function FolderIds(folder: Node, k: nat): seq<string>
    requires k <= |folder.children|
    decreases folder, k
  {
    if k == 0 then [folder.id]
    else
      var c := folder.children[k - 1];
      FolderIds(folder, k - 1) + (if IsFolder(c) then FolderIds(c, |c.children|) else [])
  }

  function EntryIds(es: seq<Entry>): seq<string> {
    seq(|es|, i requires 0 <= i < |es| => if es[i].FileEntry? then es[i].fileId else es[i].folderId)
  }

  lemma EntryIdsConcat(a: seq<Entry>, b: seq<Entry>)
    ensures EntryIds(a + b) == EntryIds(a) + EntryIds(b)
  {
  }

  /**
   * The walk appends exactly one entry per non-folder descendant, in
   * depth-first listing order, never one for a folder, and which files
   * are appended does not depend on the prefix.
   */
  lemma {:induction false} WalkAppendsEachFileOnce(folder: Node, k: nat, prefix: string)
    requires k <= |folder.children|
    ensures EntryIds(ListingEntries(folder, k, prefix)) == FileIds(folder, k)
    ensures forall i :: 0 <= i < |ListingEntries(folder, k, prefix)| ==> ListingEntries(folder, k, prefix)[i].FileEntry?
    decreases folder, k
  {
    if k > 0 {
      var c := folder.children[k - 1];
      var p := EntryPath(prefix, c.name);
      var init := ListingEntries(folder, k - 1, prefix);
      var rest := if IsFolder(c) then ListingEntries(c, |c.children|, p) else [FileEntry(p, c.id)];
      assert ListingEntries(folder, k, prefix) == init + rest;
      WalkAppendsEachFileOnce(folder, k - 1, prefix);
      if IsFolder(c) {
        WalkAppendsEachFileOnce(c, |c.children|, p);
      }
      EntryIdsConcat(init, rest);
      forall i | 0 <= i < |init + rest|
        ensures (init + rest)[i].FileEntry?
      {
        if i >= |init| {
          assert (init + rest)[i] == rest[i - |init|];
        }
      }
    }
  }

  /** Each listed folder is listed once, in visiting order, and never with a page token. */
  lemma {:induction false} EachFolderListedOnceWithoutToken(folder: Node, k: nat)
    requires k <= |folder.children|
    ensures |ListingCalls(folder, k)| == |FolderIds(folder, k)|
    ensures forall i :: 0 <= i < |ListingCalls(folder, k)| ==>
              ListingCalls(folder, k)[i] == ListCall(FolderIds(folder, k)[i], None)
    decreases folder, k
  {
    if k > 0 {
      var c := folder.children[k - 1];
      EachFolderListedOnceWithoutToken(folder, k - 1);
      if IsFolder(c) {
        EachFolderListedOnceWithoutToken(c, |c.children|);
      }
    }
  }

  /** Every folder on the way down has a non-empty name (so no path segment is dropped). */
  predicate NamedFolders(folder: Node, k: nat)
    requires k <= |folder.children|
    decreases folder, k
  {
    k == 0 ||
    (var c := folder.children[k - 1];
     NamedFolders(folder, k - 1) && (IsFolder(c) ==> c.name != "" && NamedFolders(c, |c.children|)))
  }

  function Under(prefix: string, es: seq<Entry>): seq<Entry> {
    seq(|es|, i requires 0 <= i < |es| =>
      if es[i].FileEntry? then FileEntry(prefix + "/" + es[i].path, es[i].fileId) else es[i])
  }

  lemma UnderConcat(prefix: string, a: seq<Entry>, b: seq<Entry>)
    ensures Under(prefix, a + b) == Under(prefix, a) + Under(prefix, b)
  {
  }

  /**
   * Walking under a non-empty prefix gives the root walk's entries with
   * "prefix/" in front of every path, provided no folder name is empty
   * (an empty name is falsy and drops its segment at the top level).
   */
  lemma {:induction false} WalkUnderPrefix(folder: Node, k: nat, prefix: string)
    requires k <= |folder.children|
    requires prefix != "" && NamedFolders(folder, k)
    ensures ListingEntries(folder, k, prefix) == Under(prefix, ListingEntries(folder, k, ""))
    decreases folder, k
  {
    if k > 0 {
      var c := folder.children[k - 1];
      WalkUnderPrefix(folder, k - 1, prefix);
      var top := EntryPath("", c.name);
      var here := EntryPath(prefix, c.name);
      assert here == prefix + "/" + top;
      var restTop := if IsFolder(c) then ListingEntries(c, |c.children|, top) else [FileEntry(top, c.id)];
      var restHere := if IsFolder(c) then ListingEntries(c, |c.children|, here) else [FileEntry(here, c.id)];
      if IsFolder(c) {
        WalkUnderPrefix(c, |c.children|, here);
        WalkUnderPrefix(c, |c.children|, top);
        UnderOfUnder(prefix, c.name, ListingEntries(c, |c.children|, ""));
      }
      assert restHere == Under(prefix, restTop);
      UnderConcat(prefix, ListingEntries(folder, k - 1, ""), restTop);
    }
  }

  lemma UnderOfUnder(prefix: string, name: string, es: seq<Entry>)
    ensures Under(prefix + "/" + name, es) == Under(prefix, Under(name, es))
  {
    forall i | 0 <= i < |es|
      ensures Under(prefix + "/" + name, es)[i] == Under(prefix, Under(name, es))[i]
    {
      if es[i].FileEntry? {
        assert prefix + "/" + name + "/" + es[i].path == prefix + "/" + (name + "/" + es[i].path);
      }
    }
  }

  /** The example folder [a, b, c/[d]]: entries a, b, c/d in that order. */
  lemma PreOrderExample()
    ensures var d := Node("D", "d", "text/plain", []);
            var sub := Node("C", "c", FolderMimeType, [d]);
            var root := Node("R", "root", FolderMimeType,
                             [Node("A", "a", "text/plain", []), Node("B", "b", "text/plain", []), sub]);
            FolderEntries(root, "") == [FileEntry("a", "A"), FileEntry("b", "B"), FileEntry("c/d", "D")]
  {
    var d := Node("D", "d", "text/plain", []);
    var sub := Node("C", "c", FolderMimeType, [d]);
    var root := Node("R", "root", FolderMimeType,
                     [Node("A", "a", "text/plain", []), Node("B", "b", "text/plain", []), sub]);
    assert !IsFolder(d) && IsFolder(sub) && !IsFolder(root.children[0]) && !IsFolder(root.children[1]);
    assert EntryPath("c", "d") == "c/d";
    assert ListingEntries(sub, 1, "c") == [FileEntry("c/d", "D")];
    assert ListingEntries(root, 1, "") == [FileEntry("a", "A")];
    assert ListingEntries(root, 2, "") == [FileEntry("a", "A"), FileEntry("b", "B")];
  }

  // ---------------------------------------------------------------------
  // The archiver and the walk
  // ---------------------------------------------------------------------

  /** The archiver: the entries appended so far, and whether it has been finalized. */
  class Archive {
    var entries: seq<Entry>
    var finalized: bool

    constructor ()
      ensures entries == [] && !finalized
    {
      entries := [];
      finalized := false;
    }

    /** archive.append(stream, { name }) */
    method Append(e: Entry)
      requires !finalized
      modifies this
      ensures entries == old(entries) + [e] && !finalized
    {
      entries := entries + [e];
    }

    /** archive.finalize(): writes the trailer; nothing may be appended afterwards. */
    method Finalize()
      requires !finalized
      modifies this
      ensures finalized && entries == old(entries)
    {
      finalized := true;
    }
  }

  /**
   * addFolderToArchive(currentFolderId, path): one listing call for the
   * folder, then, child by child in listing order, a recursive walk for a
   * folder or one appended entry for a file.
   */
  method AddFolderToArchive(archive: Archive, folder: Node, path: string) returns (calls: seq<ListCall>)
    requires !archive.finalized
    modifies archive
    ensures !archive.finalized
    ensures archive.entries == old(archive.entries) + FolderEntries(folder, path)
    ensures calls == FolderCalls(folder)
    decreases folder
  {
    calls := [ListCall(folder.id, None)];
    var files := folder.children;
    var i := 0;
    while i < |files|
      invariant 0 <= i <= |files|
      invariant !archive.finalized
      invariant archive.entries == old(archive.entries) + ListingEntries(folder, i, path)
      invariant calls == ListingCalls(folder, i)
    {
      var file := files[i];
      var filePath := EntryPath(path, file.name);
      if IsFolder(file) {
        var sub := AddFolderToArchive(archive, file, filePath);
        calls := calls + sub;
      } else {
        archive.Append(FileEntry(filePath, file.id));
      }
      i := i + 1;
    }
  }

  /**
   * streamFolderAsZip: a fresh archiver, the walk from the folder with an
   * empty prefix (so the folder's own name is in no path), then one finalize.
   */
  method StreamFolderAsZip(folder: Node) returns (archive: Archive, calls: seq<ListCall>)
    ensures fresh(archive)
    ensures archive.finalized
    ensures archive.entries == FolderEntries(folder, "")
    ensures calls == FolderCalls(folder)
  {
    archive := new Archive();
    calls := AddFolderToArchive(archive, folder, "");
    archive.Finalize();
  }

  // ---------------------------------------------------------------------
  // The batch driver
  // ---------------------------------------------------------------------

  /**
   * What one requested id contributes to the outer archive: a folder's own
   * archive piped in (its metadata name is not passed on), or a file's
   * stream under its bare name.
   */
  function IdEntry(id: string, meta: Node): Entry {
    if IsFolder(meta) then NestedZip(id, FolderEntries(meta, "")) else FileEntry(meta.name, id)
  }

  predicate AllKnown(drive: map<string, Node>, ids: seq<string>) {
    forall i :: 0 <= i < |ids| ==> ids[i] in drive
  }

  /** The outer archive's entries after processing `ids` in order. */
  function BatchEntries(drive: map<string, Node>, ids: seq<string>): seq<Entry>
    requires AllKnown(drive, ids)
  {
    if ids == [] then []
    else BatchEntries(drive, ids[..|ids| - 1]) + [IdEntry(ids[|ids| - 1], drive[ids[|ids| - 1]])]
  }

  /** Entry i of the batch is the contribution of the i-th requested id: one per id, in request order. */
  lemma {:induction false} BatchEntryPerId(drive: map<string, Node>, ids: seq<string>)
    requires AllKnown(drive, ids)
    ensures |BatchEntries(drive, ids)| == |ids|
    ensures forall i :: 0 <= i < |ids| ==> BatchEntries(drive, ids)[i] == IdEntry(ids[i], drive[ids[i]])
    decreases |ids|
  {
    if ids != [] {
      var init := ids[..|ids| - 1];
      BatchEntryPerId(drive, init);
      forall i | 0 <= i < |ids| - 1
        ensures ids[i] == init[i]
      {
      }
    }
  }

  /** Processing one more known id appends its contribution. */
  lemma BatchSnoc(drive: map<string, Node>, ids: seq<string>, id: string)
    requires AllKnown(drive, ids) && id in drive
    ensures AllKnown(drive, ids + [id])
    ensures BatchEntries(drive, ids + [id]) == BatchEntries(drive, ids) + [IdEntry(id, drive[id])]
  {
    assert (ids + [id])[..|ids|] == ids;
  }

  /** Batches compose: processing a then b appends b's entries after a's. */
  lemma {:induction false} BatchConcat(drive: map<string, Node>, a: seq<string>, b: seq<string>)
    requires AllKnown(drive, a) && AllKnown(drive, b)
    ensures AllKnown(drive, a + b)
    ensures BatchEntries(drive, a + b) == BatchEntries(drive, a) + BatchEntries(drive, b)
    decreases |b|
  {
    if b == [] {
      assert a + b == a;
    } else {
      var b' := b[..|b| - 1];
      var last := b[|b| - 1];
      assert AllKnown(drive, b') by {
        forall i | 0 <= i < |b'|
          ensures b'[i] in drive
        {
          assert b'[i] == b[i];
        }
      }
      BatchConcat(drive, a, b');
      assert (a + b)[..|a + b| - 1] == a + b';
      assert (a + b)[|a + b| - 1] == last;
      assert AllKnown(drive, a + b) by {
        forall i | 0 <= i < |a + b|
          ensures (a + b)[i] in drive
        {
          if i < |a| {
            assert (a + b)[i] == a[i];
          } else {
            assert (a + b)[i] == b[i - |a|];
          }
        }
      }
      assert BatchEntries(drive, a + b) == BatchEntries(drive, a + b') + [IdEntry(last, drive[last])];
      assert BatchEntries(drive, b) == BatchEntries(drive, b') + [IdEntry(last, drive[last])];
    }
  }

  /** The body of the batch loop for one id whose metadata was fetched. */
  method AppendId(archive: Archive, file: string, meta: Node)
    requires !archive.finalized
    modifies archive
    ensures !archive.finalized
    ensures archive.entries == old(archive.entries) + [IdEntry(file, meta)]
  {
    if IsFolder(meta) {
      var inner, _ := StreamFolderAsZip(meta);
      archive.Append(NestedZip(file, inner.entries));
    } else {
      archive.Append(FileEntry(meta.name, file));
    }
  }

  /**
   * streamMultipleFilesAndFolders: ids are processed in order; each id's
   * metadata is fetched first (an unknown id makes that call throw, which
   * ends the whole batch before finalize); the outer archive is finalized
   * once, after the loop.
   */
  method StreamMultipleFilesAndFolders(drive: map<string, Node>, fileIds: seq<string>)
    returns (archive: Archive, fetched: seq<string>, ok: bool)
    ensures fresh(archive)
    ensures ok <==> AllKnown(drive, fileIds)
    ensures ok ==> archive.finalized && fetched == fileIds && archive.entries == BatchEntries(drive, fileIds)
    ensures !ok ==> !archive.finalized && 0 < |fetched| <= |fileIds| && fetched == fileIds[..|fetched|]
                    && AllKnown(drive, fetched[..|fetched| - 1]) && fetched[|fetched| - 1] !in drive
                    && archive.entries == BatchEntries(drive, fetched[..|fetched| - 1])
  {
    archive := new Archive();
    fetched := [];
    var i := 0;
    while i < |fileIds|
      invariant 0 <= i <= |fileIds|
      invariant fetched == fileIds[..i] && AllKnown(drive, fetched)
      invariant !archive.finalized
      invariant archive.entries == BatchEntries(drive, fileIds[..i])
    {
      var file := fileIds[i];
      fetched := fetched + [file];
      if file !in drive {
        ok := false;
        assert fetched[..|fetched| - 1] == fileIds[..i];
        assert !AllKnown(drive, fileIds) by {
          assert fileIds[i] !in drive;
        }
        return;
      }
      AppendId(archive, file, drive[file]);
      assert fileIds[..i + 1] == fileIds[..i] + [file];
      BatchSnoc(drive, fileIds[..i], file);
      i := i + 1;
    }
    assert fileIds[..i] == fileIds;
    archive.Finalize();
    ok := true;
  }

  /** A file and a folder: the file under its bare name, the folder's archive without its name as prefix. */
  lemma FileAndFolderExample()
    ensures var img := Node("IMG", "img.png", "image/png", []);
            var drive := map["F1" := Node("F1", "report.txt", "text/plain", []),
                             "FOLDER1" := Node("FOLDER1", "Photos", FolderMimeType, [img])];
            AllKnown(drive, ["F1", "FOLDER1"]) &&
            BatchEntries(drive, ["F1", "FOLDER1"])
              == [FileEntry("report.txt", "F1"), NestedZip("FOLDER1", [FileEntry("img.png", "IMG")])]
  {
    var img := Node("IMG", "img.png", "image/png", []);
    var drive := map["F1" := Node("F1", "report.txt", "text/plain", []),
                     "FOLDER1" := Node("FOLDER1", "Photos", FolderMimeType, [img])];
    assert !IsFolder(drive["F1"]) && IsFolder(drive["FOLDER1"]) && !IsFolder(img);
    var photos := drive["FOLDER1"];
    assert |photos.children| == 1 && photos.children[0] == img;
    assert ListingEntries(photos, 0, "") == [];
    assert FolderEntries(photos, "") == [FileEntry("img.png", "IMG")];
    assert ["F1", "FOLDER1"][..1] == ["F1"];
    assert ["F1"][..0] == [];
    assert BatchEntries(drive, ["F1"]) == [FileEntry("report.txt", "F1")];
  }
}
