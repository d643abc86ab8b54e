/** The rewritten pull (`refactor_WIP/sync_manager.py`): one level only.  The
    local directory is made, the remote folder is listed once, and each listed
    item is skipped when the local path is at least as new, and otherwise
    downloaded to `<name>.tmp` and then either renamed into place or encrypted
    into place with the temporary file removed.  Exceptions are not caught:
    the first one ends the sync. */
module RefactorSync {
  import opened Common
  import opened Remote
  import opened Local

  const TMP_SUFFIX: string := ".tmp"

  /** MD5 of the empty content: what an opened but unwritten file holds. */
  const EMPTY_MD5: Digest := "d41d8cd98f00b204e9800998ecf8427e"

  function TempName(name: string): (t: string)
    ensures t != name && |t| == |name| + |TMP_SUFFIX|
  {
    name + TMP_SUFFIX
  }

  /** `DriveClient.download_file(id, path)`: the target file is opened (and
      emptied) before the request is sent, so a failed request leaves an
      empty file behind; both failures raise.  Returns whether it succeeded. */
  function DownloadToOp(env: Env, d: Drive, fs: Fs, now: int, id: Id, path: Path): (r: (Drive, Fs, bool))
    ensures r.2 ==> id in d.tree.items && d.tree.items[id].content.Some?
    ensures r.2 ==> IsFile(r.1, path) && r.1[path].data == FileData(now, d.tree.items[id].content.value)
  {
    var created := WriteFileOp(fs, path, FileData(now, Blob(0, EMPTY_MD5)));
    if created.None? then (d, fs, false)
    else
      var (d1, blob) := DownloadOp(env, d, id);
      if blob.None? then (d1, created.value, false)
      else
        LinkKeepsParent(fs, path, File(FileData(now, Blob(0, EMPTY_MD5))));
        (d1, WriteFileOp(created.value, path, FileData(now, blob.value)).value, true)
  }

  /** One listed item, in directory `dir`; `crypto` is the encryption step,
      when one is configured.  A missing `modifiedTime` raises before anything
      else happens.  Returns the store, the filesystem and whether an exception
      escaped. */
  function SyncItemOp(env: Env, d: Drive, fs: Fs, now: int, dir: Path, crypto: Option<Blob -> Blob>,
                      e: Entry): (Drive, Fs, bool)
  {
    var p := dir + [e.item.name];
    var tmp := dir + [TempName(e.item.name)];
    if e.item.modifiedTime.None? then (d, fs, true)
    else if p in fs && Mtime(fs, p) >= e.item.modifiedTime.value then (d, fs, false)
    else
      var (d1, fs1, ok) := DownloadToOp(env, d, fs, now, e.id, tmp);
      if !ok then (d1, fs1, true)
      else match crypto
        case Some(encrypt) =>
          var w := WriteFileOp(fs1, p, FileData(now, encrypt(fs1[tmp].data.blob)));
          if w.None? then (d1, fs1, true)
          else
            var rm := RemoveOp(w.value, tmp);
            if rm.None? then (d1, w.value, true) else (d1, rm.value, false)
        case None =>
          var mv := RenameOp(fs1, tmp, p);
          if mv.None? then (d1, fs1, true) else (d1, mv.value, false)
  }

  function SyncItemsOp(env: Env, d: Drive, fs: Fs, now: int, dir: Path, crypto: Option<Blob -> Blob>,
                       es: seq<Entry>): (Drive, Fs, bool)
    decreases |es|
  {
    if es == [] then (d, fs, false)
    else
      var (d1, fs1, raised) := SyncItemOp(env, d, fs, now, dir, crypto, es[0]);
      if raised then (d1, fs1, true) else SyncItemsOp(env, d1, fs1, now, dir, crypto, es[1..])
  }

  /** `sync_folder(folder)`: make the directory, list the folder with one
      request of the default page size (an API error raises), process the
      items in order. */
  function SyncFolderOp(env: Env, d: Drive, fs: Fs, now: int, dir: Path, crypto: Option<Blob -> Blob>,
                        folder: Id): (Drive, Fs, bool)
  {
    var mk := MakeDirsOp(fs, dir, now);
    if mk.None? then (d, fs, true)
    else
      var (d1, page) := ListPageOp(env, d, folder, None, DEFAULT_PAGE_SIZE);
      if page.None? then (d1, mk.value, true)
      else SyncItemsOp(env, d1, mk.value, now, dir, crypto, page.value.entries)
  }

  // ---------------------------------------------------------------------------
  // Properties of one item
  // ---------------------------------------------------------------------------

  /** The up-to-date rule: an existing local path at least as new as the
      remote item is left alone and nothing is requested; otherwise exactly
      one download request is sent for the item, once its temporary file
      could be created. */
  lemma SkipRule(env: Env, d: Drive, fs: Fs, now: int, dir: Path, crypto: Option<Blob -> Blob>, e: Entry)
    requires e.item.modifiedTime.Some?
    ensures var p := dir + [e.item.name];
      var r := SyncItemOp(env, d, fs, now, dir, crypto, e);
      && (p in fs && Mtime(fs, p) >= e.item.modifiedTime.value ==> r == (d, fs, false))
      && (!(p in fs && Mtime(fs, p) >= e.item.modifiedTime.value) ==>
            r.0.tree == d.tree &&
            r.0.calls == d.calls +
              (if WriteFileOp(fs, dir + [TempName(e.item.name)], FileData(now, Blob(0, EMPTY_MD5))).Some?
               then [DownloadCall(e.id)] else []))
  {
  }

  /** A download that goes through leaves the item's content (encrypted, when
      a crypto step is configured) at `dir/name`, stamped with the local
      clock, and no temporary file behind. */
  lemma DownloadedIntoPlace(env: Env, d: Drive, fs: Fs, now: int, dir: Path, crypto: Option<Blob -> Blob>, e: Entry)
    requires e.item.modifiedTime.Some?
    requires !(dir + [e.item.name] in fs && Mtime(fs, dir + [e.item.name]) >= e.item.modifiedTime.value)
    ensures var r := SyncItemOp(env, d, fs, now, dir, crypto, e);
      !r.2 ==> e.id in d.tree.items && d.tree.items[e.id].content.Some?
    ensures var r := SyncItemOp(env, d, fs, now, dir, crypto, e);
      !r.2 ==> (IsFile(r.1, dir + [e.item.name]) &&
                r.1[dir + [e.item.name]].data ==
                  FileData(now, if crypto.Some? then crypto.value(d.tree.items[e.id].content.value)
                                else d.tree.items[e.id].content.value))
    ensures var r := SyncItemOp(env, d, fs, now, dir, crypto, e);
      !r.2 ==> dir + [TempName(e.item.name)] !in r.1
  {
    var p := dir + [e.item.name];
    var tmp := dir + [TempName(e.item.name)];
    assert p != tmp;
    assert Parent(p) == dir && Parent(tmp) == dir;
  }

  /** A failed download request, whatever its cause (an API error, an
      unknown id, or a listed folder or Workspace document, which have no
      binary content), raises and leaves the emptied temporary file behind. */
  lemma FailedDownloadLeavesTemp(env: Env, d: Drive, fs: Fs, now: int, dir: Path, crypto: Option<Blob -> Blob>, e: Entry)
    requires e.item.modifiedTime.Some?
    requires !(dir + [e.item.name] in fs && Mtime(fs, dir + [e.item.name]) >= e.item.modifiedTime.value)
    requires DownloadOp(env, d, e.id).1.None?
    ensures var (d', fs', raised) := SyncItemOp(env, d, fs, now, dir, crypto, e);
      var tmp := dir + [TempName(e.item.name)];
      raised &&
      (WriteFileOp(fs, tmp, FileData(now, Blob(0, EMPTY_MD5))).Some? ==>
         IsFile(fs', tmp) && fs'[tmp].data.blob == Blob(0, EMPTY_MD5))
  {
  }

  // ---------------------------------------------------------------------------
  // One level only
  // ---------------------------------------------------------------------------

  /** `q` appears, disappears or changes from `fs` to `fs'`. */
  ghost predicate Changed(fs: Fs, fs': Fs, q: Path)
  {
    (q in fs || q in fs') && !(q in fs && q in fs' && fs[q] == fs'[q])
  }

  /** `q` is `dir`, one of its ancestors, or an entry directly inside `dir`. */
  ghost predicate Allowed(q: Path, dir: Path)
  {
    q <= dir || (|q| == |dir| + 1 && dir <= q)
  }

  /** Every path changed from `fs` to `fs'` is allowed for `dir`. */
  ghost predicate OnlyTouches(fs: Fs, fs': Fs, dir: Path)
  {
    forall q :: Changed(fs, fs', q) ==> Allowed(q, dir)
  }

  lemma OnlyTouchesTrans(a: Fs, b: Fs, c: Fs, dir: Path)
    requires OnlyTouches(a, b, dir) && OnlyTouches(b, c, dir)
    ensures OnlyTouches(a, c, dir)
  {
    forall q | Changed(a, c, q) ensures Allowed(q, dir) {
      assert Changed(a, b, q) || Changed(b, c, q);
    }
  }

  /** Linking a node changes only the node and its parent directory. */
  lemma LinkChanges(fs: Fs, p: Path, node: Node)
    requires p != []
    ensures forall q :: Changed(fs, Link(fs, p, node), q) ==> q == p || q == Parent(p)
  {
  }

  lemma UnlinkChanges(fs: Fs, p: Path)
    requires p != []
    ensures forall q :: Changed(fs, Unlink(fs, p), q) ==> q == p || q == Parent(p)
  {
  }

  /** Linking a node keeps its parent directory a directory. */
  lemma LinkKeepsParent(fs: Fs, p: Path, node: Node)
    requires p != []
    ensures IsDir(fs, Parent(p)) ==> IsDir(Link(fs, p, node), Parent(p))
  {
    assert |Parent(p)| < |p|;
  }

  lemma LinkTouches(fs: Fs, dir: Path, name: string, node: Node)
    ensures OnlyTouches(fs, Link(fs, dir + [name], node), dir)
  {
    assert Parent(dir + [name]) == dir;
    LinkChanges(fs, dir + [name], node);
  }

  lemma UnlinkTouches(fs: Fs, dir: Path, name: string)
    ensures OnlyTouches(fs, Unlink(fs, dir + [name]), dir)
  {
    assert Parent(dir + [name]) == dir;
    UnlinkChanges(fs, dir + [name]);
  }

  /** `makedirs(dir)` changes only `dir` and its ancestors. */
  lemma {:induction false} MakeDirsTouches(fs: Fs, dir: Path, now: int)
    ensures MakeDirsOp(fs, dir, now).Some? ==>
      forall q :: Changed(fs, MakeDirsOp(fs, dir, now).value, q) ==> q <= dir
    decreases |dir|
  {
    if dir != [] {
      var par := Parent(dir);
      MakeDirsTouches(fs, par, now);
      var r1 := MakeDirsOp(fs, par, now);
      if r1.Some? && !IsDir(r1.value, dir) && dir !in r1.value {
        var fs2 := Link(r1.value, dir, Dir([], now));
        LinkChanges(r1.value, dir, Dir([], now));
        forall q | Changed(fs, fs2, q) ensures q <= dir {
          assert Changed(fs, r1.value, q) || Changed(r1.value, fs2, q);
        }
      }
    }
  }

  lemma DownloadToTouches(env: Env, d: Drive, fs: Fs, now: int, id: Id, dir: Path, name: string)
    ensures OnlyTouches(fs, DownloadToOp(env, d, fs, now, id, dir + [name]).1, dir)
  {
    var path := dir + [name];
    var created := WriteFileOp(fs, path, FileData(now, Blob(0, EMPTY_MD5)));
    if created.Some? {
      LinkTouches(fs, dir, name, File(FileData(now, Blob(0, EMPTY_MD5))));
      var (_, blob) := DownloadOp(env, d, id);
      if blob.Some? {
        LinkTouches(created.value, dir, name, File(FileData(now, blob.value)));
        OnlyTouchesTrans(fs, created.value, DownloadToOp(env, d, fs, now, id, path).1, dir);
      }
    }
  }

  lemma RenameTouches(fs: Fs, dir: Path, src: string, dst: string)
    ensures RenameOp(fs, dir + [src], dir + [dst]).Some? ==>
      OnlyTouches(fs, RenameOp(fs, dir + [src], dir + [dst]).value, dir)
  {
    var mv := RenameOp(fs, dir + [src], dir + [dst]);
    if mv.Some? && src != dst {
      UnlinkTouches(fs, dir, src);
      var fs1 := Unlink(fs, dir + [src]);
      LinkTouches(fs1, dir, dst, fs[dir + [src]]);
      OnlyTouchesTrans(fs, fs1, mv.value, dir);
    }
  }

  lemma EncryptTouches(fs: Fs, dir: Path, name: string, tmp: string, data: FileData)
    ensures var w := WriteFileOp(fs, dir + [name], data);
      && (w.Some? ==> OnlyTouches(fs, w.value, dir))
      && (w.Some? && RemoveOp(w.value, dir + [tmp]).Some? ==>
            OnlyTouches(fs, RemoveOp(w.value, dir + [tmp]).value, dir))
  {
    var w := WriteFileOp(fs, dir + [name], data);
    if w.Some? {
      LinkTouches(fs, dir, name, File(data));
      UnlinkTouches(w.value, dir, tmp);
      if RemoveOp(w.value, dir + [tmp]).Some? {
        OnlyTouchesTrans(fs, w.value, RemoveOp(w.value, dir + [tmp]).value, dir);
      }
    }
  }

  lemma ItemTouches(env: Env, d: Drive, fs: Fs, now: int, dir: Path, crypto: Option<Blob -> Blob>, e: Entry)
    ensures OnlyTouches(fs, SyncItemOp(env, d, fs, now, dir, crypto, e).1, dir)
  {
    var name := e.item.name;
    var p := dir + [name];
    var tmp := dir + [TempName(name)];
    if e.item.modifiedTime.Some? && !(p in fs && Mtime(fs, p) >= e.item.modifiedTime.value) {
      var (d1, fs1, ok) := DownloadToOp(env, d, fs, now, e.id, tmp);
      DownloadToTouches(env, d, fs, now, e.id, dir, TempName(name));
      if ok {
        match crypto
        case Some(encrypt) =>
          var w := WriteFileOp(fs1, p, FileData(now, encrypt(fs1[tmp].data.blob)));
          EncryptTouches(fs1, dir, name, TempName(name), FileData(now, encrypt(fs1[tmp].data.blob)));
          if w.Some? {
            OnlyTouchesTrans(fs, fs1, w.value, dir);
            if RemoveOp(w.value, tmp).Some? {
              OnlyTouchesTrans(fs, fs1, RemoveOp(w.value, tmp).value, dir);
            }
          }
        case None =>
          RenameTouches(fs1, dir, TempName(name), name);
          if RenameOp(fs1, tmp, p).Some? {
            OnlyTouchesTrans(fs, fs1, RenameOp(fs1, tmp, p).value, dir);
          }
      }
    }
  }

  lemma {:induction false} ItemsTouch(env: Env, d: Drive, fs: Fs, now: int, dir: Path,
                                      crypto: Option<Blob -> Blob>, es: seq<Entry>)
    ensures OnlyTouches(fs, SyncItemsOp(env, d, fs, now, dir, crypto, es).1, dir)
    decreases |es|
  {
    if es != [] {
      var (d1, fs1, raised) := SyncItemOp(env, d, fs, now, dir, crypto, es[0]);
      ItemTouches(env, d, fs, now, dir, crypto, es[0]);
      if !raised {
        ItemsTouch(env, d1, fs1, now, dir, crypto, es[1..]);
        OnlyTouchesTrans(fs, fs1, SyncItemsOp(env, d, fs, now, dir, crypto, es).1, dir);
      }
    }
  }

  /** The sync is a single level: the only local paths it creates, changes or
      removes are the directory itself, its ancestors (made by `makedirs`)
      and entries directly inside it; nothing is recursed into. */
  lemma SingleLevel(env: Env, d: Drive, fs: Fs, now: int, dir: Path, crypto: Option<Blob -> Blob>, folder: Id)
    ensures OnlyTouches(fs, SyncFolderOp(env, d, fs, now, dir, crypto, folder).1, dir)
  {
    MakeDirsTouches(fs, dir, now);
    var mk := MakeDirsOp(fs, dir, now);
    if mk.Some? {
      assert OnlyTouches(fs, mk.value, dir);
      var (d1, page) := ListPageOp(env, d, folder, None, DEFAULT_PAGE_SIZE);
      if page.Some? {
        ItemsTouch(env, d1, mk.value, now, dir, crypto, page.value.entries);
        OnlyTouchesTrans(fs, mk.value, SyncFolderOp(env, d, fs, now, dir, crypto, folder).1, dir);
      }
    }
  }

  /** The directory is made before anything is asked of the store: when it
      cannot be made nothing is requested and nothing changes; otherwise the
      first request is the one listing of the folder. */
  lemma DirectoryFirst(env: Env, d: Drive, fs: Fs, now: int, dir: Path, crypto: Option<Blob -> Blob>, folder: Id)
    ensures var r := SyncFolderOp(env, d, fs, now, dir, crypto, folder);
      && (MakeDirsOp(fs, dir, now).None? ==> r == (d, fs, true))
      && (MakeDirsOp(fs, dir, now).Some? ==>
            |r.0.calls| > |d.calls| && r.0.calls[..|d.calls| + 1] == d.calls + [ListCall(folder)])
  {
    var mk := MakeDirsOp(fs, dir, now);
    if mk.Some? {
      var (d1, page) := ListPageOp(env, d, folder, None, DEFAULT_PAGE_SIZE);
      if page.Some? {
        ItemsExtendCalls(env, d1, mk.value, now, dir, crypto, page.value.entries);
      }
    }
  }

  /** The items only add download requests, one per listed item at most. */
  lemma {:induction false} ItemsExtendCalls(env: Env, d: Drive, fs: Fs, now: int, dir: Path,
                                            crypto: Option<Blob -> Blob>, es: seq<Entry>)
    ensures var r := SyncItemsOp(env, d, fs, now, dir, crypto, es);
      r.0.tree == d.tree && d.calls <= r.0.calls && |r.0.calls| <= |d.calls| + |es| &&
      forall i :: |d.calls| <= i < |r.0.calls| ==> r.0.calls[i].DownloadCall?
    decreases |es|
  {
    if es != [] {
      var (d1, fs1, raised) := SyncItemOp(env, d, fs, now, dir, crypto, es[0]);
      if !raised {
        ItemsExtendCalls(env, d1, fs1, now, dir, crypto, es[1..]);
        var r := SyncItemsOp(env, d, fs, now, dir, crypto, es);
        forall i | |d.calls| <= i < |r.0.calls| ensures r.0.calls[i].DownloadCall? {
          if i < |d1.calls| {
            assert r.0.calls[i] == d1.calls[i];
          }
        }
      }
    }
  }

  // ---------------------------------------------------------------------------
  // The manager object
  // ---------------------------------------------------------------------------

  class DriveSyncManager {
    const store: Store
    const local: LocalFs
    const localDir: Path
    const crypto: Option<Blob -> Blob>

    constructor (store: Store, local: LocalFs, localDir: Path, crypto: Option<Blob -> Blob>)
      ensures this.store == store && this.local == local && this.localDir == localDir && this.crypto == crypto
    {
      this.store := store;
      this.local := local;
      this.localDir := localDir;
      this.crypto := crypto;
    }

    /** `DriveClient.download_file`. */
    method DownloadTo(id: Id, path: Path) returns (ok: bool)
      requires store.Valid()
      modifies store, local
      ensures store.Valid()
      ensures (store.Value(), local.entries, ok) == DownloadToOp(store.env, old(store.Value()), old(local.entries), local.now, id, path)
    {
      ok := local.WriteFile(path, FileData(local.now, Blob(0, EMPTY_MD5)));
      if !ok {
        return;
      }
      var blob := store.Download(id);
      if blob.None? {
        return false;
      }
      ok := local.WriteFile(path, FileData(local.now, blob.value));
    }

    /** The body of the loop over the listed files. */
    method SyncItem(file: Entry) returns (raised: bool)
      requires store.Valid()
      modifies store, local
      ensures store.Valid()
      ensures (store.Value(), local.entries, raised) ==
        SyncItemOp(store.env, old(store.Value()), old(local.entries), local.now, localDir, crypto, file)
    {
      var filePath := localDir + [file.item.name];
      var tempPath := localDir + [TempName(file.item.name)];
      if file.item.modifiedTime.None? {
        return true;
      }
      var remoteMtime := file.item.modifiedTime.value;
      if filePath in local.entries && Mtime(local.entries, filePath) >= remoteMtime {
        return false;
      }
      var ok := DownloadTo(file.id, tempPath);
      if !ok {
        return true;
      }
      if crypto.Some? {
        var encrypted := crypto.value(local.entries[tempPath].data.blob);
        ok := local.WriteFile(filePath, FileData(local.now, encrypted));
        if !ok {
          return true;
        }
        ok := local.Remove(tempPath);
      } else {
        ok := local.Rename(tempPath, filePath);
      }
      raised := !ok;
    }

    method SyncFolder(folder: Id) returns (raised: bool)
      requires store.Valid()
      modifies store, local
      ensures store.Valid()
      ensures (store.Value(), local.entries, raised) ==
        SyncFolderOp(store.env, old(store.Value()), old(local.entries), local.now, localDir, crypto, folder)
    {
      var made := local.MakeDirs(localDir);
      if !made {
        return true;
      }
      var page := store.ListPage(folder, None, DEFAULT_PAGE_SIZE);
      if page.None? {
        return true;
      }
      var files := page.value.entries;
      ghost var d0, fs0 := store.Value(), local.entries;
      for i := 0 to |files|
        invariant store.Valid()
        invariant SyncItemsOp(store.env, store.Value(), local.entries, local.now, localDir, crypto, files[i..]) ==
          SyncItemsOp(store.env, d0, fs0, local.now, localDir, crypto, files)
      {
        assert files[i..][1..] == files[i + 1..];
        raised := SyncItem(files[i]);
        if raised {
          return;
        }
      }
      raised := false;
    }
  }
}
