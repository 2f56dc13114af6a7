/**
 * The folder navigation state of the frontend (CurrentFolderContext): a
 * stack of the folders above the current one, and the current folder.
 */
module FolderNav {

  datatype Folder = Folder(id: string, name: string)

  const Root: Folder := Folder("root", "My Drive")

  class CurrentFolder {
    var folderStack: seq<Folder>
    var currentFolder: Folder

    /**
     * The shape every reachable state has: with an empty stack the current
     * folder is the root, and otherwise the stack starts at the root.
     */
    ghost predicate Valid()
      reads this
    {
      (folderStack == [] ==> currentFolder == Root)
      && (folderStack != [] ==> folderStack[0] == Root)
    }

    constructor ()
      ensures folderStack == [] && currentFolder == Root
      ensures Valid()
    {
      folderStack := [];
      currentFolder := Root;
    }

    /** Opens `folder`: the folder left behind goes on top of the stack. */
    method GoToFolder(folder: Folder)
      requires Valid()
      modifies this
      ensures folderStack == old(folderStack) + [old(currentFolder)]
      ensures currentFolder == folder
      ensures Valid()
    {
      folderStack := folderStack + [currentFolder];
      currentFolder := folder;
    }

    /** Returns to the folder on top of the stack; with an empty stack nothing changes. */
    method GoBack()
      requires Valid()
      modifies this
      ensures old(folderStack) == [] ==> folderStack == [] && currentFolder == old(currentFolder)
      ensures old(folderStack) != [] ==>
                && folderStack == old(folderStack)[..|old(folderStack)| - 1]
                && currentFolder == old(folderStack)[|old(folderStack)| - 1]
      ensures Valid()
    {
      if |folderStack| == 0 {
        return;
      }
      var prev := folderStack[|folderStack| - 1];
      folderStack := folderStack[..|folderStack| - 1];
      currentFolder := prev;
    }

    /**
     * Makes the stack entry at `index` current and drops it and everything
     * above it. An index outside the stack would make the current folder
     * `undefined`; the navigation is defined for indices inside the stack.
     */
    method GoToBreadcrumb(index: int)
      requires Valid()
      requires 0 <= index < |folderStack|
      modifies this
      ensures folderStack == old(folderStack)[..index]
      ensures currentFolder == old(folderStack)[index]
      ensures Valid()
    {
      var newStack := folderStack[..index];
      var newCurrent := folderStack[index];
      folderStack := newStack;
      currentFolder := newCurrent;
    }
  }

  /** Opening a folder and going back restores both the stack and the current folder. */
  method GoToFolderThenBack(nav: CurrentFolder, folder: Folder)
    requires nav.Valid()
    modifies nav
    ensures nav.folderStack == old(nav.folderStack)
    ensures nav.currentFolder == old(nav.currentFolder)
    ensures nav.Valid()
  {
    nav.GoToFolder(folder);
    nav.GoBack();
  }
}
