/**
 * What the Drive toolbar derives from the navigation state: the breadcrumb
 * trail, whether the Back button shows, and which stack index a click on a
 * breadcrumb hands to the navigation.
 */
module Toolbar {
  import opened Wrappers
  import opened FolderNav

  /** The crumbs shown: the root alone at the root, else the root, the stack and the current folder. */
  function BreadcrumbPath(folderStack: seq<Folder>, currentFolder: Folder): (path: seq<Folder>)
    ensures |path| > 0 && path[0] == Root
    ensures currentFolder.id == "root" ==> path == [Root]
    ensures currentFolder.id != "root" ==>
              |path| == |folderStack| + 2 && path[|path| - 1] == currentFolder
              && forall j :: 0 <= j < |folderStack| ==> path[j + 1] == folderStack[j]
  {
    if currentFolder.id != "root" then [Root] + folderStack + [currentFolder] else [Root]
  }

  /** The Back button shows unless the stack is empty and the current folder is the root. */
  predicate ShowBack(folderStack: seq<Folder>, currentFolder: Folder)
    ensures currentFolder.id != "root" ==> ShowBack(folderStack, currentFolder)
    ensures folderStack == [] && currentFolder == Root ==> !ShowBack(folderStack, currentFolder)
  {
    |folderStack| > 0 || currentFolder.id != "root"
  }

  /** In every reachable state the Back button shows exactly when going back would change something. */
  lemma ShowBackIffStackNonEmpty(nav: CurrentFolder)
    requires nav.Valid()
    ensures ShowBack(nav.folderStack, nav.currentFolder) <==> nav.folderStack != []
  {
  }

  /**
   * The toolbar as written: clicking crumb `idx` passes `idx` itself to the
   * navigation, except on the last crumb, which does nothing.
   */
  function CrumbClickAsWritten(path: seq<Folder>, idx: nat): (arg: Option<int>)
    requires idx < |path|
    ensures arg.None? <==> idx == |path| - 1
    ensures arg.Some? ==> arg.value == idx
  {
    if idx != |path| - 1 then Some(idx) else None
  }

  /**
   * The crumb path repeats the root: the stack already starts with it. So a
   * path index is one ahead of the stack index of the same folder, and the
   * parent crumb hands over an index just past the end of the stack.
   */
  lemma CrumbClickOffByOne()
    ensures var stack := [Root, Folder("a", "A")];
            var current := Folder("b", "B");
            var path := BreadcrumbPath(stack, current);
            && path == [Root, Root, Folder("a", "A"), Folder("b", "B")]
            && CrumbClickAsWritten(path, 2) == Some(|stack|)
            && CrumbClickAsWritten(path, 1) == Some(1) && stack[1] != path[1]
  {
  }

  /** The stack index of the folder on crumb `idx`: the two root crumbs both lead to stack index 0. */
  function CrumbTarget(path: seq<Folder>, idx: nat): (arg: Option<int>)
    requires idx < |path|
    ensures arg.None? <==> idx == |path| - 1
    ensures arg.Some? ==> 0 <= arg.value && (idx > 0 ==> arg.value == idx - 1)
  {
    if idx == |path| - 1 then None
    else if idx == 0 then Some(0)
    else Some(idx - 1)
  }

  /** In every reachable state each clickable crumb maps to a stack entry showing that crumb's folder. */
  lemma CrumbTargetInStack(nav: CurrentFolder, idx: nat)
    requires nav.Valid()
    requires idx < |BreadcrumbPath(nav.folderStack, nav.currentFolder)|
    ensures var path := BreadcrumbPath(nav.folderStack, nav.currentFolder);
            var t := CrumbTarget(path, idx);
            t.Some? ==> t.value < |nav.folderStack| && nav.folderStack[t.value] == path[idx]
  {
  }

  /**
   * A click on crumb `idx` with the corrected index: the last crumb changes
   * nothing, any other opens the folder shown on it and pops everything above.
   */
  method ClickCrumb(nav: CurrentFolder, idx: nat)
    requires nav.Valid()
    requires idx < |BreadcrumbPath(nav.folderStack, nav.currentFolder)|
    modifies nav
    ensures var path := old(BreadcrumbPath(nav.folderStack, nav.currentFolder));
            idx == |path| - 1 ==> nav.folderStack == old(nav.folderStack) && nav.currentFolder == old(nav.currentFolder)
    ensures var path := old(BreadcrumbPath(nav.folderStack, nav.currentFolder));
            idx < |path| - 1 ==>
              && CrumbTarget(path, idx).value < |old(nav.folderStack)|
              && nav.folderStack == old(nav.folderStack)[..CrumbTarget(path, idx).value]
              && nav.currentFolder == path[idx]
    ensures nav.Valid()
  {
    var path := BreadcrumbPath(nav.folderStack, nav.currentFolder);
    var target := CrumbTarget(path, idx);
    if target.Some? {
      CrumbTargetInStack(nav, idx);
      nav.GoToBreadcrumb(target.value);
    }
  }
}
