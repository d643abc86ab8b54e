/** The service object the sync manager talks to (`classes/GoogleDriveService.py`),
    built on the store's single requests: a one-page listing that returns
    nothing on error, a lookup by name, a folder creation that first looks for
    an existing folder of the same name, an upload that turns into an update
    when an item of the same name is already there, and a download that writes
    the content into the local filesystem. */
module DriveService {
  import opened Common
  import opened Remote
  import opened Local

  /** `list_folder_contents` asks for one page of this many items. */
  const LIST_PAGE_SIZE: nat := 1000

  /** `list_folder_contents`: one request; an error yields an empty list. */
  function ListFolderContentsOp(env: Env, d: Drive, folder: Id): (Drive, seq<Entry>)
  {
    var (d1, page) := ListPageOp(env, d, folder, None, LIST_PAGE_SIZE);
    (d1, if page.None? then [] else page.value.entries)
  }

  /** The listing is the first LIST_PAGE_SIZE children of the folder when it
      can be listed and empty otherwise (the two cannot be told apart by the
      caller); each listed entry is a current child of the folder. */
  lemma ListFolderContentsSpec(env: Env, d: Drive, folder: Id)
    ensures var (d', es) := ListFolderContentsOp(env, d, folder);
      var kids := Children(d.tree, folder);
      && d' == Logged(d, ListCall(folder))
      && es == (if folder in env.faulty || !Known(d.tree, folder) then []
                else kids[..Min(LIST_PAGE_SIZE, |kids|)])
      && (forall e :: e in es ==> e.id in d.tree.items && d.tree.items[e.id] == e.item && e.item.parent == folder)
  {
    var kids := Children(d.tree, folder);
    assert forall k :: 0 <= k <= |kids| ==> forall e :: e in kids[..k] ==> e in kids;
  }

  /** `get_item_id` / `get_folder_id`: the id of the first child with that name
      (and folder type, when asked); an error yields none. */
  function GetItemIdOp(env: Env, d: Drive, name: string, parent: Id, folderOnly: bool): (Drive, Option<Id>)
  {
    var (d1, e) := FindOp(env, d, name, parent, folderOnly);
    (d1, if e.None? then None else Some(e.value.id))
  }

  /** `create_folder`: returns the existing folder of that name, if any, and
      creates one otherwise. */
  function CreateFolderServiceOp(env: Env, d: Drive, name: string, parent: Id): (Drive, Option<Id>)
  {
    var (d1, found) := GetItemIdOp(env, d, name, parent, true);
    if found.Some? then (d1, found) else CreateFolderOp(env, d1, name, parent)
  }

  /** `upload_file`: an update of the given id when asked to update one;
      otherwise an update of the first item of that name in the folder, and
      only when there is none, a new file. */
  function UploadFileOp(env: Env, d: Drive, name: string, folder: Id, update: bool,
                        existing: Option<Id>, blob: Blob): (Drive, Option<Id>)
  {
    if update && existing.Some? then UpdateFileOp(env, d, existing.value, Some(name), blob)
    else
      var (d1, found) := GetItemIdOp(env, d, name, folder, false);
      if found.Some? then UpdateFileOp(env, d1, found.value, Some(name), blob)
      else CreateFileOp(env, d1, name, folder, blob)
  }

  /** `download_file(id, dir, name)`: fetches the content and writes it to
      `dir/name`, stamped with the local clock; any failure yields false and
      leaves the local filesystem as it was. */
  function DownloadFileOp(env: Env, d: Drive, fs: Fs, now: int, id: Id, dir: Path, name: string): (Drive, Fs, bool)
  {
    var (d1, blob) := DownloadOp(env, d, id);
    if blob.None? then (d1, fs, false)
    else
      var w := WriteFileOp(fs, dir + [name], FileData(now, blob.value));
      if w.None? then (d1, fs, false) else (d1, w.value, true)
  }

  /** A download either puts the item's content at `dir/name` or changes
      nothing locally; the store's content is never changed. */
  lemma DownloadFileSpec(env: Env, d: Drive, fs: Fs, now: int, id: Id, dir: Path, name: string)
    ensures var (d', fs', ok) := DownloadFileOp(env, d, fs, now, id, dir, name);
      && d' == Logged(d, DownloadCall(id))
      && (ok ==> id in d.tree.items && d.tree.items[id].content.Some? &&
                 dir + [name] in fs' && fs'[dir + [name]] == File(FileData(now, d.tree.items[id].content.value)))
      && (!ok ==> fs' == fs)
      && (ok <==> id !in env.faulty && id in d.tree.items && d.tree.items[id].content.Some? &&
                  WriteFileOp(fs, dir + [name], FileData(now, d.tree.items[id].content.value)).Some?)
  {
  }

  // ---------------------------------------------------------------------------
  // create_folder does not make duplicates
  // ---------------------------------------------------------------------------

  lemma {:induction false} ChildrenInSame(t: Tree, t': Tree, folder: Id, ids: seq<Id>)
    requires forall x :: x in ids ==> (x in t.items <==> x in t'.items)
    requires forall x :: x in ids && x in t.items ==> t'.items[x] == t.items[x]
    ensures ChildrenIn(t', folder, ids) == ChildrenIn(t, folder, ids)
    decreases |ids|
  {
    if ids != [] {
      ChildrenInSame(t, t', folder, ids[..|ids| - 1]);
    }
  }

  /** Adding an item appends it to the children of its parent, and to no
      other folder's. */
  lemma ChildrenAfterAdd(t: Tree, item: Item, folder: Id)
    requires TreeValid(t)
    ensures var (t', id) := AddItem(t, item);
      Children(t', folder) == Children(t, folder) + (if item.parent == folder then [Entry(id, item)] else [])
  {
    var (t', id) := AddItem(t, item);
    if id in t.order {
      var i :| 0 <= i < |t.order| && t.order[i] == id;
      IdForInjective(i, |t.order|);
    }
    assert t'.order[..|t'.order| - 1] == t.order;
    ChildrenInSame(t, t', folder, t.order);
  }

  lemma {:induction false} FirstNamedAppend(es: seq<Entry>, e: Entry, name: string, folderOnly: bool)
    requires FirstNamed(es, name, folderOnly).None? && Matches(e, name, folderOnly)
    ensures FirstNamed(es + [e], name, folderOnly) == Some(e)
    decreases |es|
  {
    if es == [] {
      assert [e] == es + [e];
    } else {
      assert (es + [e])[1..] == es[1..] + [e];
      FirstNamedAppend(es[1..], e, name, folderOnly);
    }
  }

  /** `create_folder` is idempotent: once it has returned an id, asking again
      for the same name under the same parent returns the same id, sends only
      the lookup and creates nothing. */
  lemma CreateFolderIdempotent(env: Env, d: Drive, name: string, parent: Id)
    requires TreeValid(d.tree)
    ensures var (d1, r1) := CreateFolderServiceOp(env, d, name, parent);
      r1.Some? ==>
        CreateFolderServiceOp(env, d1, name, parent) == (Logged(d1, FindCall(name, parent)), r1)
  {
    var (d0, found) := GetItemIdOp(env, d, name, parent, true);
    if found.None? && parent !in env.faulty && IsFolderId(d.tree, parent) {
      var item := Item(name, parent, FOLDER_MIME, Some(env.now), None);
      var (t', id) := AddItem(d.tree, item);
      ChildrenAfterAdd(d.tree, item, parent);
      FirstNamedAppend(Children(d.tree, parent), Entry(id, item), name, true);
    }
  }

  /** `upload_file` never creates a second item with a name the folder
      already holds: when it is not told to update a given id and the folder
      can be listed, a new file is created only if no child carries that name,
      and it then holds exactly the uploaded content. */
  lemma UploadFileNoDuplicate(env: Env, d: Drive, name: string, folder: Id, update: bool,
                              existing: Option<Id>, blob: Blob)
    requires !(update && existing.Some?)
    requires folder !in env.faulty && Known(d.tree, folder)
    ensures var (d', r) := UploadFileOp(env, d, name, folder, update, existing, blob);
      && (FirstNamed(Children(d.tree, folder), name, false).Some? ==>
            d'.calls == d.calls + [FindCall(name, folder), UpdateFileCall(FirstNamed(Children(d.tree, folder), name, false).value.id)])
      && (FirstNamed(Children(d.tree, folder), name, false).None? ==>
            d'.calls == d.calls + [FindCall(name, folder), CreateFileCall(name, folder)] &&
            (r.Some? ==> r.value in d'.tree.items &&
                         d'.tree.items[r.value] == Item(name, folder, BINARY_MIME, Some(env.now), Some(blob))))
  {
  }

  lemma CreateFolderServiceValid(env: Env, d: Drive, name: string, parent: Id)
    requires TreeValid(d.tree)
    ensures TreeValid(CreateFolderServiceOp(env, d, name, parent).0.tree)
  {
    var (d1, found) := GetItemIdOp(env, d, name, parent, true);
    CreateFolderValid(env, d1, name, parent);
  }

  lemma UploadFileValid(env: Env, d: Drive, name: string, folder: Id, update: bool,
                        existing: Option<Id>, blob: Blob)
    requires TreeValid(d.tree)
    ensures TreeValid(UploadFileOp(env, d, name, folder, update, existing, blob).0.tree)
  {
    if update && existing.Some? {
      UpdateFileValid(env, d, existing.value, Some(name), blob);
    } else {
      var (d1, found) := GetItemIdOp(env, d, name, folder, false);
      if found.Some? {
        UpdateFileValid(env, d1, found.value, Some(name), blob);
      } else {
        CreateFileValid(env, d1, name, folder, blob);
      }
    }
  }

  // ---------------------------------------------------------------------------
  // The service as methods on the store
  // ---------------------------------------------------------------------------

  method ListFolderContents(store: Store, folder: Id) returns (es: seq<Entry>)
    requires store.Valid()
    modifies store
    ensures store.Valid()
    ensures (store.Value(), es) == ListFolderContentsOp(store.env, old(store.Value()), folder)
  {
    var page := store.ListPage(folder, None, LIST_PAGE_SIZE);
    es := if page.None? then [] else page.value.entries;
  }

  method GetItemId(store: Store, name: string, parent: Id, folderOnly: bool) returns (id: Option<Id>)
    requires store.Valid()
    modifies store
    ensures store.Valid()
    ensures (store.Value(), id) == GetItemIdOp(store.env, old(store.Value()), name, parent, folderOnly)
  {
    var e := store.Find(name, parent, folderOnly);
    id := if e.None? then None else Some(e.value.id);
  }

  method CreateFolder(store: Store, name: string, parent: Id) returns (id: Option<Id>)
    requires store.Valid()
    modifies store
    ensures store.Valid()
    ensures (store.Value(), id) == CreateFolderServiceOp(store.env, old(store.Value()), name, parent)
  {
    id := GetItemId(store, name, parent, true);
    if id.Some? {
      return;
    }
    id := store.CreateFolder(name, parent);
  }

  method UploadFile(store: Store, name: string, folder: Id, update: bool, existing: Option<Id>, blob: Blob)
    returns (id: Option<Id>)
    requires store.Valid()
    modifies store
    ensures store.Valid()
    ensures (store.Value(), id) == UploadFileOp(store.env, old(store.Value()), name, folder, update, existing, blob)
  {
    if update && existing.Some? {
      id := store.UpdateFile(existing.value, Some(name), blob);
      return;
    }
    var found := GetItemId(store, name, folder, false);
    if found.Some? {
      id := store.UpdateFile(found.value, Some(name), blob);
      return;
    }
    id := store.CreateFile(name, folder, blob);
  }

  method DownloadFile(store: Store, local: LocalFs, id: Id, dir: Path, name: string) returns (ok: bool)
    requires store.Valid()
    modifies store, local
    ensures store.Valid()
    ensures (store.Value(), local.entries, ok) ==
      DownloadFileOp(store.env, old(store.Value()), old(local.entries), local.now, id, dir, name)
  {
    var blob := store.Download(id);
    if blob.None? {
      return false;
    }
    ok := local.WriteFile(dir + [name], FileData(local.now, blob.value));
  }
}
