# Google Drive sync engine, modelled in Dafny

This project models the reconciliation engine of a file-synchronisation tool. The tool compares a local
directory tree with a Google Drive folder tree, and for each item it decides whether to create, update,
download or skip it. The repository holds three versions of that engine, and each is modelled on its own terms:

- `gdrive_sync.py` (module `GdriveSync`). A push-only backup.
  - A tiered "needs update" check: timestamp with a 2-second tolerance, then size, then an optional MD5 digest.
  - Dry-run placeholder ids.
  - A depth-first walker that lists each remote folder page by page into a name map.
  - The root folder find-or-create of `main`.
- `classes/SyncManager.py` (module `SyncManager`). Push and pull walkers driven by a conflict policy
  (`newer_wins`, `local_wins`, `remote_wins`, `skip`).
  - It resolves and caches the base folder.
  - It uses simulated folder ids in dry run.
  - It skips Google Workspace files on download.
  - `run` picks the direction, and "two-way" is a push followed by a pull.
- `refactor_WIP/sync_manager.py` (module `RefactorSync`). A one-level pull.
  - An item is skipped when the local file is at least as new as the remote one.
  - Otherwise it is downloaded to `<name>.tmp`, which is then renamed, or encrypted, into place.

Supporting modules:

- `Remote`: the Drive store.
  - Items are kept in creation order, with name, parent, MIME type, optional modification time and optional content.
  - A log records every request sent.
  - The single requests are: list one page, find by name, create folder, create file, update file, download.
  - Each request is a function on a `Drive` value, and class `Store` has one method per request, proved equal to that function.
- `DriveService`: the wrapper in `classes/GoogleDriveService.py`, built on those requests.
  - Its one-page listing returns `[]` on error.
  - It has a find-or-create folder operation.
  - Its upload turns into an update when a same-named item exists.
  - Its download writes into the local filesystem.
- `Local`: the local filesystem as a map from paths to directories and files, with
  `makedirs`, write, `rename` and `remove`, and class `LocalFs` with one method for each.
- `Common`: `Option`, digests and content blobs, string helpers.

Every walker is a method, or a class method for the two manager classes. Each is proved equal to a specification function
on values: the store's new state, the filesystem's new state and the result. The properties are
lemmas about those functions.

Modelling choices:

- Timestamps are integers in milliseconds, and the 2-second tolerance is `TOLERANCE = 2000`.
- The store stamps created and updated items with its own clock (`Env.now`). The local filesystem stamps what it writes with the local clock (`LocalFs.now`).
- Request failures are modelled by `Env.faulty`: any request addressed to one of those ids fails, and so does any request addressed to an id the store does not know.
- The `dry_run` and `COMPARE_HASHES` globals of `gdrive_sync.py` become an explicit `Settings` value.
- SyncManager's configuration becomes a `Config` record, with the defaults of `classes/ConfigLoader.py`: direction `two-way`, policy `newer_wins`, dry run off.

Behaviour of the code that its own comments and messages do not make plain, and that the model follows:

- **Same-named items.** The find-by-name lookup takes the first match ("Return the first match", `gdrive_sync.py:111`). The walkers' name maps keep the *last* of several same-named remote items, because each one overwrites the dictionary entry (`gdrive_sync.py:258-259`, `classes/SyncManager.py:115`).
- **Simulated ids are sent to the store.** `SyncManager` does send listing requests for simulated folder ids (`classes/SyncManager.py:114`). The store answers them with an error, which `list_folder_contents` turns into `[]`.
- **The dry-run backup still talks to the store.** The banner says no actual changes will be made (`gdrive_sync.py:332`), and indeed it never sends a mutating request. It does look up the root folder and list every real folder.
- **The dry-run pull still makes local directories.** For subfolders it only reports that it would create them (`classes/SyncManager.py:271`), but the `os.makedirs` at the head of `sync_from_drive` (`classes/SyncManager.py:244`) runs in dry run too. It never changes a file.
- **A failed refactored download leaves a file behind.** The target file is opened before the request is sent, so a failed download leaves an empty `.tmp` file.

## Model

| member | source | states |
|---|---|---|
| GdriveSync.NeedsUpdate | gdrive_sync.py:158-195 | a missing remote mtime always needs an update; a local mtime beyond remote + 2 s needs one; within the tolerance an update is needed iff the remote size is present and differs, or hashes are compared and the remote digest is missing or differs from a missing or different local one |
| GdriveSync.DryRunFileId | gdrive_sync.py:220-222 | the dry-run file id carries the `dry_run_` prefix and no space after it |
| GdriveSync.DryRunFolderId | gdrive_sync.py:128-130 | the dry-run folder id carries the `dry_run_` prefix and no space after it |
| Common.ReplaceSpaces | gdrive_sync.py:130 | the placeholder's name part has the same length as the name, every space becomes `_` and every other character is kept |
| GdriveSync.UploadOrUpdateFile | gdrive_sync.py:145-238 | the store's new state and the returned id are those of the tiered decision, then skip, dry-run update, update request, dry-run new id or create request |
| GdriveSync.UploadLeavesUpToDate | gdrive_sync.py:197-238 | a real upload or update stores exactly the local content, after which the same check no longer asks for an update, and no other item changes |
| GdriveSync.CreateDriveFolder | gdrive_sync.py:117-143 | the dry-run path sends nothing and returns the placeholder; otherwise it sends one create request whose failure yields none |
| GdriveSync.ListAllFromCorrect | gdrive_sync.py:249-262 | listing from a page token sends one list request per page until no token is returned, changes nothing, and adds every remaining child to the map; an error yields none |
| GdriveSync.ListAllCorrect | gdrive_sync.py:247-267 | a full listing changes nothing, sends only list requests for the folder (exactly one when it fails), and yields the name map in which a later same-named child overwrites an earlier one, or none on error |
| Remote.NameMapLookup | gdrive_sync.py:258-259 | looking a name up in the listing map gives the last listed child of that name |
| GdriveSync.ListDriveItems | gdrive_sync.py:249-262 | the paginated loop's result and requests are those of the listing function |
| GdriveSync.SyncDirectoryRecursive | gdrive_sync.py:240-307 | the walk's effect on the store is that of the depth-first push specification |
| GdriveSync.ListingErrorStopsWalk | gdrive_sync.py:263-267 | when the listing fails, nothing beyond the one list request happens and no local entry is processed |
| GdriveSync.PushEntryCases | gdrive_sync.py:271-307 | hidden entries are skipped; a file against a remote folder and a directory against a remote file are skipped; an existing remote folder is recursed into; a missing one is created and recursed into only if an id was obtained |
| GdriveSync.DryRunDir | gdrive_sync.py:240-307 | a dry-run walk leaves the store's items unchanged and sends only list requests for real folders, never for placeholders |
| GdriveSync.DryRunPlaceholderDir | gdrive_sync.py:248 | in dry run, a walk under a placeholder id sends no request at all |
| GdriveSync.RunBackup | gdrive_sync.py:341-369 | the backup's effect and outcome are those of the specification: not a directory, no root folder, or synced under the root folder found or created |
| GdriveSync.BackupAbortsEarly | gdrive_sync.py:341-366 | a missing local root ends the run before any request; a root folder that can be neither found nor created ends it after the find and the create, with no walk |
| GdriveSync.DryRunBackup | gdrive_sync.py:327-369 | a dry-run backup changes no remote item and sends no mutating request |
| Remote.ListPageFacts | gdrive_sync.py:252-260 | one page request is logged, and a returned page token lies strictly between the current offset and the number of children |
| Remote.FirstNamed | classes/GoogleDriveService.py:76-78 | the lookup returns the first child matching the name (and folder type when asked): no earlier child matches; it returns none only when no child matches |
| Remote.ChildrenIn | gdrive_sync.py:253 | the folder's listing holds exactly the items whose parent is the folder, with their stored metadata |
| Remote.Store.ListPage | gdrive_sync.py:252-257 | the list request's page and the new store are those of the page function |
| Remote.Store.Find | classes/GoogleDriveService.py:67-79 | the find request's result and new store are those of the find function |
| Remote.Store.CreateFolder | classes/GoogleDriveService.py:100-108 | the create-folder request's result and new store are those of its function |
| Remote.Store.CreateFile | classes/GoogleDriveService.py:157-163 | the create-file request's result and new store are those of its function |
| Remote.Store.UpdateFile | classes/GoogleDriveService.py:136-143 | the update request's result and new store are those of its function |
| Remote.Store.Download | classes/GoogleDriveService.py:182-188 | the download request's content and new store are those of its function |
| Remote.AddItemValid | classes/GoogleDriveService.py:100-108 | adding an item under a known parent keeps the store's tree well formed |
| DriveService.ListFolderContentsSpec | classes/GoogleDriveService.py:202-217 | one list request; the result is the folder's first 1000 children, or `[]` when the request fails; every entry is a child with its stored metadata |
| DriveService.ListFolderContents | classes/GoogleDriveService.py:202-217 | the method's result and requests are those of the one-page listing |
| DriveService.GetItemId | classes/GoogleDriveService.py:57-86 | the method's result and requests are those of the find-by-name function |
| DriveService.CreateFolder | classes/GoogleDriveService.py:88-111 | the method's result and new store are those of find-or-create |
| DriveService.CreateFolderIdempotent | classes/GoogleDriveService.py:94-98 | once a folder id was returned, asking again for the same name and parent returns the same id after only a lookup |
| DriveService.CreateFolderServiceValid | classes/GoogleDriveService.py:88-111 | find-or-create keeps the store's tree well formed |
| DriveService.UploadFile | classes/GoogleDriveService.py:113-170 | the method's result and new store are those of the upload function |
| DriveService.UploadFileNoDuplicate | classes/GoogleDriveService.py:145-163 | without an id to update, an existing same-named item is updated instead of duplicated, and a new file is created only when none exists, holding exactly the uploaded content |
| DriveService.UploadFileValid | classes/GoogleDriveService.py:113-170 | uploading keeps the store's tree well formed |
| DriveService.DownloadFileSpec | classes/GoogleDriveService.py:172-200 | one download request; success iff the id exists, has content and can be written, after which `dir/name` holds that content; a failure leaves the filesystem as it was |
| DriveService.DownloadFile | classes/GoogleDriveService.py:172-200 | the method's effect on store and filesystem is that of the download function |
| SyncManager.ParseDirection | classes/SyncManager.py:365-385 | `up`, `down` and `two-way` are recognised exactly, every other text is kept as unknown |
| SyncManager.ParsePolicy | classes/SyncManager.py:172-186 | the four policy names are recognised exactly, every other text is kept as unknown |
| SyncManager.DefaultConfig | classes/ConfigLoader.py:52-62 | the defaults are direction two-way, policy newer_wins and dry run off |
| SyncManager.SimulatedFolderId | classes/SyncManager.py:142 | the simulated id is the reserved prefix followed by the folder name, unchanged |
| SyncManager.SimulatedIdUnknown | classes/SyncManager.py:114 | a simulated id never names an item of the store, so listing it fails and yields `[]` |
| SyncManager.PushDecision | classes/SyncManager.py:147-203 | no remote item: new upload; remote folder: clash; no local mtime: skip; no remote mtime: update of the existing id; otherwise update iff local_wins, or newer_wins with local strictly newer |
| SyncManager.PullDecision | classes/SyncManager.py:277-316 | no local file: download; local directory: clash; a missing remote or local mtime: download; otherwise download iff remote_wins, or newer_wins with remote strictly newer |
| SyncManager.PushPullExclusive | classes/SyncManager.py:172-186 | for one file with both mtimes known, a push update and a pull download are never both decided on the same snapshot of the remote item |
| SyncManager.UpdatedFileComesBack | classes/SyncManager.py:369-374 | in a two-way run under newer_wins, a file whose local mtime lies between the remote mtime and the server clock is updated by the push, restamped with the server clock, and then chosen for download by the pull |
| SyncManager.SyncToDriveOp | classes/SyncManager.py:114-119 | the push raises exactly when the local path is not a directory |
| SyncManager.PushEntryCases | classes/SyncManager.py:123-219 | type clashes send nothing; a file with no remote namesake is uploaded as new, except in dry run; a missing folder in dry run gets a simulated id and is recursed into; an existing remote folder is recursed into |
| SyncManager.SyncToDriveValid | classes/SyncManager.py:97-219 | the push keeps the store's tree well formed |
| SyncManager.DryRunPush | classes/SyncManager.py:134-145 | a dry-run push changes no remote item and sends only list requests |
| SyncManager.SyncFromDriveOp | classes/SyncManager.py:230-337 | the pull never changes the remote items |
| SyncManager.PullItemCases | classes/SyncManager.py:263-337 | a remote folder against a local file and a remote file against a local directory are skipped; a file absent locally is downloaded unless in dry run or a Workspace file |
| SyncManager.PullSafe | classes/SyncManager.py:318-337 | the pull sends only list and download requests, never downloads a Workspace file, downloads nothing in dry run, and in dry run leaves every local file as it was |
| SyncManager.EnsureCaches | classes/SyncManager.py:34-57 | a cached id is returned with no request; once resolved, the id is returned from the cache afterwards; in dry run nothing is created and a missing folder costs one lookup; a failed create can happen only outside dry run |
| SyncManager.EnsureValid | classes/SyncManager.py:39-45 | resolving the base folder keeps the store's tree well formed |
| SyncManager.RunValid | classes/SyncManager.py:350-385 | a run keeps the store's tree well formed |
| SyncManager.TwoWayIsUpThenDown | classes/SyncManager.py:369-374 | a two-way run is an up run followed, when it finished, by a down run that uses the cached base folder |
| SyncManager.RunWithoutSync | classes/SyncManager.py:352-362 | with no base folder, or with an unknown direction, the run syncs nothing; it reports no base exactly when the folder is missing, and raises when its creation failed |
| SyncManager.Manager.constructor | classes/SyncManager.py:14-32 | a new manager holds the given store, filesystem and configuration, and no cached base folder |
| SyncManager.Manager.EnsureDriveBaseFolderExists | classes/SyncManager.py:34-57 | the result and requests are those of the resolution function, and the cache is set exactly when an id was resolved |
| SyncManager.Manager.SyncToDrive | classes/SyncManager.py:97-219 | the recursive push's effect and raise are those of the push specification |
| SyncManager.Manager.SyncFromDrive | classes/SyncManager.py:230-337 | the recursive pull's effect on store and filesystem and its raise are those of the pull specification |
| SyncManager.Manager.Run | classes/SyncManager.py:350-385 | the run's effect, new cache and outcome are those of the run specification |
| Local.MakeDirsOp | refactor_WIP/sync_manager.py:11 | a successful `makedirs` leaves the path a directory, and when the path and all its ancestors are directories already it succeeds and changes nothing |
| Local.MakeDirsExisting | classes/SyncManager.py:244 | `exist_ok=True`: in a well-formed filesystem, making a directory that exists succeeds and changes nothing |
| Local.MakeDirsWellFormed | classes/SyncManager.py:269 | `makedirs` keeps the filesystem well formed (the root a directory, every other path inside a directory) |
| Local.WriteFileWellFormed | classes/GoogleDriveService.py:191-192 | writing a file keeps the filesystem well formed |
| Local.RenameWellFormed | refactor_WIP/sync_manager.py:32 | `rename` keeps the filesystem well formed |
| Local.RemoveWellFormed | refactor_WIP/sync_manager.py:30 | `remove` keeps the filesystem well formed |
| Local.MakeDirsKeepsFiles | classes/SyncManager.py:244 | `makedirs` never changes or removes a file |
| Local.LocalFs.MakeDirs | classes/SyncManager.py:269 | the method's success and new filesystem are those of `makedirs`, and a well-formed filesystem stays well formed |
| Local.LocalFs.WriteFile | classes/GoogleDriveService.py:191-192 | the method's success and new filesystem are those of a file write, and a well-formed filesystem stays well formed |
| Local.LocalFs.Rename | refactor_WIP/sync_manager.py:32 | the method's success and new filesystem are those of `rename`, and a well-formed filesystem stays well formed |
| Local.LocalFs.Remove | refactor_WIP/sync_manager.py:30 | the method's success and new filesystem are those of `remove`, and a well-formed filesystem stays well formed |
| RefactorSync.TempName | refactor_WIP/sync_manager.py:16 | the temporary name differs from the file name and is longer by the suffix |
| RefactorSync.DownloadToOp | refactor_WIP/drive_client.py:15-20 | a successful download leaves the target a file holding exactly the item's stored content |
| RefactorSync.SkipRule | refactor_WIP/sync_manager.py:19-26 | an existing local path at least as new as the remote item is skipped with no request; otherwise exactly one download request is sent once the temporary file is opened, and the store is unchanged |
| RefactorSync.DownloadedIntoPlace | refactor_WIP/sync_manager.py:26-32 | a download that goes through leaves the item's content, encrypted when crypto is set, at `dir/name`, and no `.tmp` file |
| RefactorSync.FailedDownloadLeavesTemp | refactor_WIP/drive_client.py:15-20 | a failed download request, whatever its cause (API error, unknown id, or a listed folder or Workspace document with no binary content), raises and leaves an empty temporary file in place |
| RefactorSync.MakeDirsTouches | refactor_WIP/sync_manager.py:11 | `makedirs` changes only the directory and its ancestors |
| RefactorSync.ItemTouches | refactor_WIP/sync_manager.py:14-32 | one item changes only entries directly inside the directory, and the directory itself |
| RefactorSync.SingleLevel | refactor_WIP/sync_manager.py:14-15 | the whole sync creates, changes or removes only the directory, its ancestors and entries directly inside it |
| RefactorSync.DirectoryFirst | refactor_WIP/sync_manager.py:11-12 | when the directory cannot be made nothing is requested; otherwise the first request is the folder listing |
| RefactorSync.ItemsExtendCalls | refactor_WIP/sync_manager.py:14-26 | the items never change the store and add only download requests, at most one per item |
| RefactorSync.DriveSyncManager.constructor | refactor_WIP/sync_manager.py:5-8 | a new manager holds the given client, directory and crypto step |
| RefactorSync.DriveSyncManager.DownloadTo | refactor_WIP/drive_client.py:15-20 | the method's effect on store and filesystem is that of the download function |
| RefactorSync.DriveSyncManager.SyncItem | refactor_WIP/sync_manager.py:15-32 | one loop iteration's effect and raise are those of the item specification |
| RefactorSync.DriveSyncManager.SyncFolder | refactor_WIP/sync_manager.py:10-32 | the whole sync's effect and raise are those of the folder specification |

## Left out

- Authentication and token handling (`authenticate_gdrive`, `GoogleDriveService._authenticate`, `refactor_WIP/auth.py`): OAuth flows and file I/O.
- `refactor_WIP/crypto_utils.py`: AES-CBC comes from a foreign library. Encryption is an opaque total function on content, so the random IV, which makes real ciphertexts differ run to run, is not modelled.
- MD5 computation (`get_file_md5`) and RFC 3339 timestamp parsing: digests are opaque strings and time is integer milliseconds. Sub-millisecond precision and time zones are not modelled.
- `classes/ConfigLoader.py` and `main.py` (JSON loading, argparse): only the defaults are kept, as `DefaultConfig`.
- Prints and download progress reporting.
- The deletion phases, which are commented out in the source.
- `SyncManager._get_drive_path_id`: neither `run` nor the walkers call it.
- The default-argument paths of `sync_to_drive` and `sync_from_drive`, where a missing argument means the base path or base folder: `run` always passes both arguments.
- Local files are assumed always readable and stat-able. The source's "could not get local mtime" branches are kept in the decision functions (`PushDecision`, `PullDecision`) but are never reached from the filesystem model.
- Special files (neither file nor directory) and files that vanish during a walk are not modelled.
- `upload_file`'s check that the local file exists, and `download_file`'s inner `makedirs`: the walkers only call them on files and directories that exist.
- The `trashed = false` filter and the `spaces` argument of listings: the store holds no trashed items.
- Names containing quotes, which would break the name query, are not modelled.
- RefactorSync.SingleLevel, and likewise the pull walkers SyncManager.SyncFromDriveOp, SyncManager.PullItemSM and DriveService.DownloadFileOp: a remote name is joined to the local directory as one path component (`dir + [name]`). `os.path.join` would split a name containing `/`, and `.` or `..` would point at the directory itself or its parent. So remote names are assumed to contain no `/` and not to be `.` or `..`. For such names the source can fail where the model succeeds, or write below or outside the directory, and SingleLevel does not cover them.
- Local.RenameOp follows POSIX `rename`, which replaces an existing file at the target. On Windows `os.rename` refuses an existing target; that behaviour is not modelled.
- Listing order: the Drive API promises no order for `files().list` without `orderBy`. The model lists a folder's children in creation order. That assumption decides which same-named item the first-match lookup and the last-wins name maps pick.
- Python truthiness of ids: ids are non-empty strings, so an id is "found" exactly when it is present.
- SyncManager.PullSafe: promises only that a dry-run pull keeps every file, not the whole filesystem. The source's dry-run pull does create directories, through the `makedirs` at the head of `sync_from_drive`.
- RefactorSync.SingleLevel: states which paths may change, not that entries directly inside the directory other than the listed names and their `.tmp` companions stay untouched.
