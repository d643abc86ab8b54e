/** The standalone one-way backup script (`gdrive_sync.py`): it mirrors a local
    directory tree into a folder of the remote store, creating folders that are
    missing, uploading files that are new and updating files whose local copy is
    newer (with a two-second tolerance) or differs in size or, optionally, in
    MD5 digest.  A dry run sends only listing requests and makes up placeholder
    ids for what it would have created. */
module GdriveSync {
  import opened Common
  import opened Remote
  import opened Local

  /** Name of the backup folder directly under the root of the store. */
  const ROOT_FOLDER_NAME: string := "My Documents Backup"

  /** Two seconds, in milliseconds: how much newer a local file must be. */
  const TOLERANCE: int := 2000

  /** Every placeholder id a dry run makes up starts with this. */
  const DRY_RUN_PREFIX: string := "dry_run_"

  /** The script's two switches, `DRY_RUN` and `COMPARE_HASHES`. */
  datatype Settings = Settings(dryRun: bool, compareHashes: bool)

  /** Both switches are off as shipped. */
  const DEFAULT_SETTINGS: Settings := Settings(false, false)

  /** The result of a walk started from `main`. */
  datatype BackupOutcome = NotADirectory | NoRootFolder | Synced(rootId: Id)

  // ---------------------------------------------------------------------------
  // Deciding whether a file needs an update
  // ---------------------------------------------------------------------------

  predicate SizeDiffers(localSize: nat, remote: Item)
  {
    remote.Size().Some? && remote.Size().value != localSize
  }

  /** With hashes compared, a missing digest on either side counts as a
      mismatch. */
  predicate HashMismatch(localMd5: Option<Digest>, remote: Item)
  {
    remote.Md5().None? || localMd5.None? || localMd5.value != remote.Md5().value
  }

  /** The tiers of `upload_or_update_file`: a remote item without a
      modification time is always updated; a local file more than TOLERANCE
      newer is updated; otherwise a size difference, and then (only when
      hashes are compared) a digest mismatch, decide. */
  function NeedsUpdate(localMtime: int, localSize: nat, localMd5: Option<Digest>,
                       remote: Item, compareHashes: bool): (r: bool)
    ensures remote.modifiedTime.None? ==> r
    ensures remote.modifiedTime.Some? && localMtime > remote.modifiedTime.value + TOLERANCE ==> r
    ensures remote.modifiedTime.Some? && localMtime <= remote.modifiedTime.value + TOLERANCE ==>
      (r <==> SizeDiffers(localSize, remote) || (compareHashes && HashMismatch(localMd5, remote)))
  {
    match remote.modifiedTime
    case None => true
    case Some(rm) =>
      if localMtime > rm + TOLERANCE then true
      else if remote.Size().Some? && remote.Size().value != localSize then true
      else if compareHashes && remote.Md5().Some? then
        if localMd5.Some? && localMd5.value != remote.Md5().value then true
        else localMd5.None?
      else compareHashes && remote.Md5().None?
  }

  /** The placeholder a dry run returns for a file it would have uploaded. */
  function DryRunFileId(name: string): (id: Id)
    ensures StartsWith(id, DRY_RUN_PREFIX) && ' ' !in id[|DRY_RUN_PREFIX|..]
  {
    "dry_run_file_id_for_" + ReplaceSpaces(name)
  }

  /** The placeholder a dry run returns for a folder it would have created. */
  function DryRunFolderId(name: string): (id: Id)
    ensures StartsWith(id, DRY_RUN_PREFIX) && ' ' !in id[|DRY_RUN_PREFIX|..]
  {
    "dry_run_folder_id_for_" + ReplaceSpaces(name)
  }

  /** A folder is listed unless this is a dry run and its id is a placeholder
      (or empty). */
  predicate ShouldList(s: Settings, parent: Id)
  {
    !s.dryRun || (parent != "" && !StartsWith(parent, DRY_RUN_PREFIX))
  }

  // ---------------------------------------------------------------------------
  // Single operations
  // ---------------------------------------------------------------------------

  /** `upload_or_update_file`: the local file is always readable here, so its
      digest is known. */
  function UploadOrUpdateOp(env: Env, d: Drive, name: string, local: FileData, parent: Id,
                            existing: Option<Entry>, s: Settings): (Drive, Option<Id>)
  {
    match existing
    case Some(e) =>
      if !NeedsUpdate(local.mtime, local.blob.size, Some(local.blob.md5), e.item, s.compareHashes) then (d, Some(e.id))
      else if s.dryRun then (d, Some(e.id))
      else UpdateFileOp(env, d, e.id, None, local.blob)
    case None =>
      if s.dryRun then (d, Some(DryRunFileId(name)))
      else CreateFileOp(env, d, name, parent, local.blob)
  }

  /** `create_drive_folder`. */
  function CreateDriveFolderOp(env: Env, d: Drive, name: string, parent: Id, s: Settings): (Drive, Option<Id>)
  {
    if s.dryRun then (d, Some(DryRunFolderId(name)))
    else CreateFolderOp(env, d, name, parent)
  }

  method UploadOrUpdateFile(store: Store, name: string, local: FileData, parent: Id,
                            existing: Option<Entry>, s: Settings) returns (id: Option<Id>)
    requires store.Valid()
    modifies store
    ensures store.Valid()
    ensures (store.Value(), id) == UploadOrUpdateOp(store.env, old(store.Value()), name, local, parent, existing, s)
  {
    if existing.Some? {
      var e := existing.value;
      var needs := NeedsUpdate(local.mtime, local.blob.size, Some(local.blob.md5), e.item, s.compareHashes);
      if !needs {
        return Some(e.id);
      }
      if s.dryRun {
        return Some(e.id);
      }
      id := store.UpdateFile(e.id, None, local.blob);
    } else {
      if s.dryRun {
        return Some(DryRunFileId(name));
      }
      id := store.CreateFile(name, parent, local.blob);
    }
  }

  method CreateDriveFolder(store: Store, name: string, parent: Id, s: Settings) returns (id: Option<Id>)
    requires store.Valid()
    modifies store
    ensures store.Valid()
    ensures (store.Value(), id) == CreateDriveFolderOp(store.env, old(store.Value()), name, parent, s)
  {
    if s.dryRun {
      return Some(DryRunFolderId(name));
    }
    id := store.CreateFolder(name, parent);
  }

  /** An upload that succeeds leaves the remote copy up to date: as long as the
      server clock is not more than TOLERANCE behind the local file's mtime, the
      next run finds nothing to update, with or without hash comparison, and no
      other item has changed. */
  lemma UploadLeavesUpToDate(env: Env, d: Drive, name: string, local: FileData, parent: Id,
                             existing: Option<Entry>, s: Settings, compareHashes: bool)
    requires !s.dryRun && local.mtime <= env.now + TOLERANCE
    ensures var (d', id) := UploadOrUpdateOp(env, d, name, local, parent, existing, s);
      id.Some? && d' != d ==>
        && id.value in d'.tree.items
        && d'.tree.items[id.value].content == Some(local.blob)
        && !NeedsUpdate(local.mtime, local.blob.size, Some(local.blob.md5), d'.tree.items[id.value], compareHashes)
        && (forall x :: x in d.tree.items && x != id.value ==> x in d'.tree.items && d'.tree.items[x] == d.tree.items[x])
  {
  }

  // ---------------------------------------------------------------------------
  // Listing a folder page by page
  // ---------------------------------------------------------------------------

  /** Pages a listing of `n` children takes from offset `o` on: at least one,
      even for an empty folder. */
  function PagesFrom(o: nat, n: nat): (k: nat)
    ensures k >= 1
    decreases n - o
  {
    if o + DEFAULT_PAGE_SIZE >= n then 1 else 1 + PagesFrom(o + DEFAULT_PAGE_SIZE, n)
  }

  function Repeat(c: Call, k: nat): (r: seq<Call>)
    ensures |r| == k && forall i :: 0 <= i < k ==> r[i] == c
  {
    if k == 0 then [] else [c] + Repeat(c, k - 1)
  }

  /** The `while True` loop of `sync_directory_recursive`: request pages until
      no next token comes back, adding each page's items to a name-keyed map;
      any failed page abandons the listing. */
  function ListAllFrom(env: Env, d: Drive, folder: Id, token: Option<nat>,
                       acc: map<string, Entry>): (Drive, Option<map<string, Entry>>)
    decreases |Children(d.tree, folder)| - token.GetOr(0)
  {
    ListPageFacts(env, d, folder, token, DEFAULT_PAGE_SIZE);
    var (d1, page) := ListPageOp(env, d, folder, token, DEFAULT_PAGE_SIZE);
    if page.None? then (d1, None)
    else
      var acc' := AddAll(acc, page.value.entries);
      if page.value.next.None? then (d1, Some(acc'))
      else ListAllFrom(env, d1, folder, page.value.next, acc')
  }

  /** One round of the listing loop, spelled out on the folder's children. */
  lemma ListAllStep(env: Env, d: Drive, folder: Id, token: Option<nat>, acc: map<string, Entry>)
    ensures var kids := Children(d.tree, folder);
      var o := Min(token.GetOr(0), |kids|);
      var end := Min(o + DEFAULT_PAGE_SIZE, |kids|);
      var d1 := Logged(d, ListCall(folder));
      ListAllFrom(env, d, folder, token, acc) ==
        if folder in env.faulty || !Known(d.tree, folder) then (d1, None)
        else if end == |kids| then (d1, Some(AddAll(acc, kids[o..])))
        else ListAllFrom(env, d1, folder, Some(end), AddAll(acc, kids[o..end]))
  {
    var kids := Children(d.tree, folder);
    var o := Min(token.GetOr(0), |kids|);
    assert kids[o..Min(o + DEFAULT_PAGE_SIZE, |kids|)] == kids[o..] || Min(o + DEFAULT_PAGE_SIZE, |kids|) < |kids|;
  }

  lemma {:induction false} ListAllFromCorrect(env: Env, d: Drive, folder: Id, token: Option<nat>,
                                             acc: map<string, Entry>)
    ensures ListAllFrom(env, d, folder, token, acc).0.tree == d.tree
    ensures var kids := Children(d.tree, folder);
      ListAllFrom(env, d, folder, token, acc).0.calls == d.calls +
        Repeat(ListCall(folder), if folder !in env.faulty && Known(d.tree, folder)
                                 then PagesFrom(Min(token.GetOr(0), |kids|), |kids|) else 1)
    ensures ListAllFrom(env, d, folder, token, acc).1.Some? <==> folder !in env.faulty && Known(d.tree, folder)
    ensures var kids := Children(d.tree, folder);
      ListAllFrom(env, d, folder, token, acc).1.Some? ==>
        ListAllFrom(env, d, folder, token, acc).1.value == AddAll(acc, kids[Min(token.GetOr(0), |kids|)..])
    decreases |Children(d.tree, folder)| - token.GetOr(0)
  {
    var kids := Children(d.tree, folder);
    var o := Min(token.GetOr(0), |kids|);
    var end := Min(o + DEFAULT_PAGE_SIZE, |kids|);
    var d1 := Logged(d, ListCall(folder));
    ListAllStep(env, d, folder, token, acc);
    assert Repeat(ListCall(folder), 1) == [ListCall(folder)];
    if folder !in env.faulty && Known(d.tree, folder) && end < |kids| {
      assert kids[o..] == kids[o..end] + kids[end..];
      AddAllAppend(acc, kids[o..end], kids[end..]);
      ListAllFromCorrect(env, d1, folder, Some(end), AddAll(acc, kids[o..end]));
      assert Repeat(ListCall(folder), PagesFrom(o, |kids|)) ==
        [ListCall(folder)] + Repeat(ListCall(folder), PagesFrom(end, |kids|));
    }
  }

  /** The whole listing: the folder's children (every page of them) as a map
      in which each name keeps its last listed item, or nothing when the folder
      cannot be listed; either way only listing requests are sent and the store
      is unchanged. */
  lemma ListAllCorrect(env: Env, d: Drive, folder: Id)
    ensures var kids := Children(d.tree, folder);
      var ok := folder !in env.faulty && Known(d.tree, folder);
      var (d', r) := ListAllFrom(env, d, folder, None, map[]);
      && d'.tree == d.tree
      && d.calls < d'.calls
      && (forall i :: |d.calls| <= i < |d'.calls| ==> d'.calls[i] == ListCall(folder))
      && (r.Some? <==> ok)
      && (r.Some? ==> r.value == NameMap(kids))
      && (!ok ==> d'.calls == d.calls + [ListCall(folder)])
  {
    var kids := Children(d.tree, folder);
    ListAllFromCorrect(env, d, folder, None, map[]);
    assert kids[0..] == kids;
    var ok := folder !in env.faulty && Known(d.tree, folder);
    var k := if ok then PagesFrom(0, |kids|) else 1;
    var d' := ListAllFrom(env, d, folder, None, map[]).0;
    assert d'.calls == d.calls + Repeat(ListCall(folder), k);
    forall i | |d.calls| <= i < |d'.calls| ensures d'.calls[i] == ListCall(folder) {
      assert d'.calls[i] == Repeat(ListCall(folder), k)[i - |d.calls|];
    }
  }

  method ListDriveItems(store: Store, folder: Id) returns (r: Option<map<string, Entry>>)
    requires store.Valid()
    modifies store
    ensures store.Valid()
    ensures (store.Value(), r) == ListAllFrom(store.env, old(store.Value()), folder, None, map[])
  {
    var items: map<string, Entry> := map[];
    var token: Option<nat> := None;
    ghost var kids := Children(store.tree, folder);
    while true
      invariant store.Valid() && store.tree == old(store.tree)
      invariant ListAllFrom(store.env, store.Value(), folder, token, items) ==
        ListAllFrom(store.env, old(store.Value()), folder, None, map[])
      decreases |kids| - token.GetOr(0)
    {
      ListPageFacts(store.env, store.Value(), folder, token, DEFAULT_PAGE_SIZE);
      var page := store.ListPage(folder, token, DEFAULT_PAGE_SIZE);
      if page.None? {
        return None;
      }
      var es := page.value.entries;
      ghost var before := items;
      var j := 0;
      while j < |es|
        invariant 0 <= j <= |es|
        invariant AddAll(items, es[j..]) == AddAll(before, es)
      {
        assert es[j..][1..] == es[j + 1..];
        items := items[es[j].item.name := es[j]];
        j := j + 1;
      }
      if page.value.next.None? {
        return Some(items);
      }
      token := page.value.next;
    }
  }

  // ---------------------------------------------------------------------------
  // The recursive walk
  // ---------------------------------------------------------------------------

  /** `sync_directory_recursive(dir, parent)`: what the walk does to the store. */
  function PushDir(env: Env, d: Drive, fs: Fs, dir: Path, parent: Id, s: Settings): Drive
    requires IsDir(fs, dir)
    decreases Under(fs, dir), 2, 0
  {
    if ShouldList(s, parent) then
      var (d1, m) := ListAllFrom(env, d, parent, None, map[]);
      if m.None? then d1
      else PushEntries(env, d1, fs, dir, parent, s, m.value, ListDir(fs, dir))
    else PushEntries(env, d, fs, dir, parent, s, map[], ListDir(fs, dir))
  }

  /** The walk over the directory's entries, in listing order. */
  function PushEntries(env: Env, d: Drive, fs: Fs, dir: Path, parent: Id, s: Settings,
                       m: map<string, Entry>, names: seq<string>): Drive
    requires IsDir(fs, dir)
    decreases Under(fs, dir), 1, |names|
  {
    if names == [] then d
    else PushEntries(env, PushEntry(env, d, fs, dir, parent, s, m, names[0]), fs, dir, parent, s, m, names[1..])
  }

  /** One entry: hidden names are skipped, a file standing against a remote
      folder and a directory standing against a remote file are conflicts and
      skipped, files are uploaded or updated, and directories are found or
      created and then walked. */
  function PushEntry(env: Env, d: Drive, fs: Fs, dir: Path, parent: Id, s: Settings,
                     m: map<string, Entry>, name: string): Drive
    requires IsDir(fs, dir)
    decreases Under(fs, dir), 0, 0
  {
    var p := dir + [name];
    var existing := Lookup(m, name);
    if StartsWith(name, ".") then d
    else if IsFile(fs, p) then
      if existing.Some? && existing.value.item.IsFolder() then d
      else UploadOrUpdateOp(env, d, name, fs[p].data, parent, existing, s).0
    else if IsDir(fs, p) then
      if existing.Some? && !existing.value.item.IsFolder() then d
      else
        var (d1, sub) := if existing.Some? then (d, Some(existing.value.id))
                         else CreateDriveFolderOp(env, d, name, parent, s);
        if sub.None? then d1
        else
          UnderShrinks(fs, dir, name);
          PushDir(env, d1, fs, p, sub.value, s)
    else d
  }

  method SyncDirectoryRecursive(store: Store, fs: Fs, dir: Path, parent: Id, s: Settings)
    requires store.Valid() && IsDir(fs, dir)
    modifies store
    ensures store.Valid()
    ensures store.Value() == PushDir(store.env, old(store.Value()), fs, dir, parent, s)
    decreases Under(fs, dir)
  {
    var items: map<string, Entry> := map[];
    if ShouldList(s, parent) {
      var listed := ListDriveItems(store, parent);
      if listed.None? {
        return;
      }
      items := listed.value;
    }
    ghost var d0 := store.Value();
    var names := ListDir(fs, dir);
    for i := 0 to |names|
      invariant store.Valid()
      invariant PushEntries(store.env, store.Value(), fs, dir, parent, s, items, names[i..]) ==
        PushEntries(store.env, d0, fs, dir, parent, s, items, names)
    {
      assert names[i..][1..] == names[i + 1..];
      var name := names[i];
      var p := dir + [name];
      if StartsWith(name, ".") {
        continue;
      }
      var existing := Lookup(items, name);
      if IsFile(fs, p) {
        if existing.Some? && existing.value.item.IsFolder() {
          continue;
        }
        var _ := UploadOrUpdateFile(store, name, fs[p].data, parent, existing, s);
      } else if IsDir(fs, p) {
        var sub: Option<Id>;
        if existing.Some? {
          if !existing.value.item.IsFolder() {
            continue;
          }
          sub := Some(existing.value.id);
        } else {
          sub := CreateDriveFolder(store, name, parent, s);
        }
        if sub.Some? {
          UnderShrinks(fs, dir, name);
          SyncDirectoryRecursive(store, fs, p, sub.value, s);
        }
      }
    }
  }

  // ---------------------------------------------------------------------------
  // The entry point
  // ---------------------------------------------------------------------------

  /** `main` after authentication: the local root must be a directory; the
      backup folder is searched for under the root of the store (folders
      only) and created when absent; the walk starts from it. */
  function BackupOp(env: Env, d: Drive, fs: Fs, localRoot: Path, s: Settings): (Drive, BackupOutcome)
  {
    if !IsDir(fs, localRoot) then (d, NotADirectory)
    else
      var (d1, found) := FindOp(env, d, ROOT_FOLDER_NAME, ROOT, true);
      var (d2, rootId) := if found.Some? then (d1, Some(found.value.id))
                          else CreateDriveFolderOp(env, d1, ROOT_FOLDER_NAME, ROOT, s);
      if rootId.None? then (d2, NoRootFolder)
      else (PushDir(env, d2, fs, localRoot, rootId.value, s), Synced(rootId.value))
  }

  method RunBackup(store: Store, fs: Fs, localRoot: Path, s: Settings) returns (outcome: BackupOutcome)
    requires store.Valid()
    modifies store
    ensures store.Valid()
    ensures (store.Value(), outcome) == BackupOp(store.env, old(store.Value()), fs, localRoot, s)
  {
    if !IsDir(fs, localRoot) {
      return NotADirectory;
    }
    var found := store.Find(ROOT_FOLDER_NAME, ROOT, true);
    var rootId: Option<Id>;
    if found.Some? {
      rootId := Some(found.value.id);
    } else {
      rootId := CreateDriveFolder(store, ROOT_FOLDER_NAME, ROOT, s);
    }
    if rootId.None? {
      return NoRootFolder;
    }
    SyncDirectoryRecursive(store, fs, localRoot, rootId.value, s);
    outcome := Synced(rootId.value);
  }

  // ---------------------------------------------------------------------------
  // Properties of the walk
  // ---------------------------------------------------------------------------

  /** The requests appended after `before` are all listings of real (not
      placeholder) folder ids. */
  ghost predicate OnlyRealListings(before: seq<Call>, after: seq<Call>)
  {
    before <= after &&
    forall i :: |before| <= i < |after| ==>
      after[i].ListCall? && !StartsWith(after[i].folder, DRY_RUN_PREFIX)
  }

  lemma OnlyRealListingsTrans(a: seq<Call>, b: seq<Call>, c: seq<Call>)
    requires OnlyRealListings(a, b) && OnlyRealListings(b, c)
    ensures OnlyRealListings(a, c)
  {
    forall i | |a| <= i < |c| ensures c[i].ListCall? && !StartsWith(c[i].folder, DRY_RUN_PREFIX) {
      if i < |b| {
        assert c[i] == b[i];
      }
    }
  }

  /** A dry run leaves the store's content untouched and sends nothing but
      listing requests, none of them for a placeholder id. */
  lemma {:induction false} DryRunDir(env: Env, d: Drive, fs: Fs, dir: Path, parent: Id, s: Settings)
    requires s.dryRun && IsDir(fs, dir)
    ensures var r := PushDir(env, d, fs, dir, parent, s);
      r.tree == d.tree && OnlyRealListings(d.calls, r.calls)
    decreases Under(fs, dir), 2, 0
  {
    if ShouldList(s, parent) {
      ListAllCorrect(env, d, parent);
      var (d1, m) := ListAllFrom(env, d, parent, None, map[]);
      assert OnlyRealListings(d.calls, d1.calls);
      if m.Some? {
        DryRunEntries(env, d1, fs, dir, parent, s, m.value, ListDir(fs, dir));
        OnlyRealListingsTrans(d.calls, d1.calls, PushDir(env, d, fs, dir, parent, s).calls);
      }
    } else {
      DryRunEntries(env, d, fs, dir, parent, s, map[], ListDir(fs, dir));
    }
  }

  lemma {:induction false} DryRunEntries(env: Env, d: Drive, fs: Fs, dir: Path, parent: Id, s: Settings,
                                         m: map<string, Entry>, names: seq<string>)
    requires s.dryRun && IsDir(fs, dir)
    ensures var r := PushEntries(env, d, fs, dir, parent, s, m, names);
      r.tree == d.tree && OnlyRealListings(d.calls, r.calls)
    decreases Under(fs, dir), 1, |names|
  {
    if names != [] {
      var d1 := PushEntry(env, d, fs, dir, parent, s, m, names[0]);
      DryRunEntry(env, d, fs, dir, parent, s, m, names[0]);
      DryRunEntries(env, d1, fs, dir, parent, s, m, names[1..]);
      OnlyRealListingsTrans(d.calls, d1.calls, PushEntries(env, d, fs, dir, parent, s, m, names).calls);
    }
  }

  lemma {:induction false} DryRunEntry(env: Env, d: Drive, fs: Fs, dir: Path, parent: Id, s: Settings,
                                       m: map<string, Entry>, name: string)
    requires s.dryRun && IsDir(fs, dir)
    ensures var r := PushEntry(env, d, fs, dir, parent, s, m, name);
      r.tree == d.tree && OnlyRealListings(d.calls, r.calls)
    decreases Under(fs, dir), 0, 0
  {
    var p := dir + [name];
    var existing := Lookup(m, name);
    if !StartsWith(name, ".") && !IsFile(fs, p) && IsDir(fs, p) &&
       !(existing.Some? && !existing.value.item.IsFolder()) {
      var sub := if existing.Some? then existing.value.id else DryRunFolderId(name);
      UnderShrinks(fs, dir, name);
      DryRunDir(env, d, fs, p, sub, s);
    }
  }

  /** Below a placeholder id a dry run sends no request at all: nothing is
      listed, so every directory below is "missing" and gets a placeholder in
      turn. */
  lemma {:induction false} DryRunPlaceholderDir(env: Env, d: Drive, fs: Fs, dir: Path, parent: Id, s: Settings)
    requires s.dryRun && IsDir(fs, dir) && StartsWith(parent, DRY_RUN_PREFIX)
    ensures PushDir(env, d, fs, dir, parent, s) == d
    decreases Under(fs, dir), 2, 0
  {
    DryRunPlaceholderEntries(env, d, fs, dir, parent, s, ListDir(fs, dir));
  }

  lemma {:induction false} DryRunPlaceholderEntries(env: Env, d: Drive, fs: Fs, dir: Path, parent: Id,
                                                    s: Settings, names: seq<string>)
    requires s.dryRun && IsDir(fs, dir) && StartsWith(parent, DRY_RUN_PREFIX)
    ensures PushEntries(env, d, fs, dir, parent, s, map[], names) == d
    decreases Under(fs, dir), 1, |names|
  {
    if names != [] {
      var name := names[0];
      var p := dir + [name];
      if !StartsWith(name, ".") && !IsFile(fs, p) && IsDir(fs, p) {
        UnderShrinks(fs, dir, name);
        DryRunPlaceholderDir(env, d, fs, p, DryRunFolderId(name), s);
      }
      assert PushEntry(env, d, fs, dir, parent, s, map[], name) == d;
      DryRunPlaceholderEntries(env, d, fs, dir, parent, s, names[1..]);
    }
  }

  /** When the folder cannot be listed the walk stops after the one failed
      listing request: nothing below it is touched. */
  lemma ListingErrorStopsWalk(env: Env, d: Drive, fs: Fs, dir: Path, parent: Id, s: Settings)
    requires IsDir(fs, dir) && ShouldList(s, parent)
    requires parent in env.faulty || !Known(d.tree, parent)
    ensures PushDir(env, d, fs, dir, parent, s) == Logged(d, ListCall(parent))
  {
    ListAllCorrect(env, d, parent);
  }

  /** How one entry is handled, with respect to what the listing showed under
      its name: a hidden entry or a type conflict leaves everything as it was,
      a directory with a remote folder of its name is walked into that folder
      with no creation, and a directory with no remote item of its name is
      created first. */
  lemma PushEntryCases(env: Env, d: Drive, fs: Fs, dir: Path, parent: Id, s: Settings,
                       m: map<string, Entry>, name: string)
    requires IsDir(fs, dir)
    ensures var r := PushEntry(env, d, fs, dir, parent, s, m, name);
      var p := dir + [name];
      && (StartsWith(name, ".") ==> r == d)
      && (!StartsWith(name, ".") && IsFile(fs, p) && name in m && m[name].item.IsFolder() ==> r == d)
      && (!StartsWith(name, ".") && IsDir(fs, p) && name in m && !m[name].item.IsFolder() ==> r == d)
      && (!StartsWith(name, ".") && IsDir(fs, p) && name in m && m[name].item.IsFolder() ==>
            r == PushDir(env, d, fs, p, m[name].id, s))
      && (!StartsWith(name, ".") && IsDir(fs, p) && name !in m ==>
            var (d1, sub) := CreateDriveFolderOp(env, d, name, parent, s);
            r == (if sub.None? then d1 else PushDir(env, d1, fs, p, sub.value, s)))
  {
  }

  /** `main` gives up before any walk when the local root is not a directory
      or the backup folder can be neither found nor created; only the search
      and the creation attempt for it are sent. */
  lemma BackupAbortsEarly(env: Env, d: Drive, fs: Fs, localRoot: Path, s: Settings)
    ensures var (d', out) := BackupOp(env, d, fs, localRoot, s);
      && (out == NotADirectory <==> !IsDir(fs, localRoot))
      && (out == NotADirectory ==> d' == d)
      && (out == NoRootFolder ==>
            d'.tree == d.tree &&
            d'.calls == d.calls + [FindCall(ROOT_FOLDER_NAME, ROOT), CreateFolderCall(ROOT_FOLDER_NAME, ROOT)])
  {
  }

  /** A dry run of the whole backup changes nothing in the store. */
  lemma DryRunBackup(env: Env, d: Drive, fs: Fs, localRoot: Path, s: Settings)
    requires s.dryRun
    ensures var (d', out) := BackupOp(env, d, fs, localRoot, s);
      d'.tree == d.tree && forall i :: |d.calls| <= i < |d'.calls| ==> !d'.calls[i].Mutating()
  {
    if IsDir(fs, localRoot) {
      var (d1, found) := FindOp(env, d, ROOT_FOLDER_NAME, ROOT, true);
      var rootId := if found.Some? then found.value.id else DryRunFolderId(ROOT_FOLDER_NAME);
      DryRunDir(env, d1, fs, localRoot, rootId, s);
    }
  }
}
