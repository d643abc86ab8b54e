/** The configurable sync manager (`classes/SyncManager.py`): a push walker
    that creates missing folders and uploads files according to a conflict
    policy, a pull walker that creates missing directories and downloads files
    according to the same policy, the lazily resolved and cached base folder,
    and `run`, which picks the direction. */
module SyncManager {
  import opened Common
  import opened Remote
  import opened Local
  import opened DriveService

  datatype Direction = Up | Down | TwoWay | OtherDirection(text: string)

  datatype Policy = NewerWins | LocalWins | RemoteWins | SkipConflicts | OtherPolicy(text: string)

  /** The configuration strings the manager compares `sync_direction` with. */
  function ParseDirection(s: string): (r: Direction)
    ensures r == Up <==> s == "up"
    ensures r == Down <==> s == "down"
    ensures r == TwoWay <==> s == "two-way"
    ensures r.OtherDirection? ==> r.text == s
  {
    if s == "up" then Up else if s == "down" then Down else if s == "two-way" then TwoWay
    else OtherDirection(s)
  }

  /** The configuration strings the manager compares `conflict_resolution` with. */
  function ParsePolicy(s: string): (r: Policy)
    ensures r == NewerWins <==> s == "newer_wins"
    ensures r == LocalWins <==> s == "local_wins"
    ensures r == RemoteWins <==> s == "remote_wins"
    ensures r == SkipConflicts <==> s == "skip"
    ensures r.OtherPolicy? ==> r.text == s
  {
    if s == "newer_wins" then NewerWins else if s == "local_wins" then LocalWins
    else if s == "remote_wins" then RemoteWins else if s == "skip" then SkipConflicts
    else OtherPolicy(s)
  }

  /** The values the configuration falls back on when a key is absent. */
  const DEFAULT_DIRECTION: string := "two-way"
  const DEFAULT_POLICY: string := "newer_wins"
  const DEFAULT_DRY_RUN: bool := false

  /** What the walkers go by: the conflict policy and the dry-run switch. */
  datatype Rules = Rules(policy: Policy, dryRun: bool)

  datatype Config = Config(localBase: Path, folderName: string, direction: Direction, rules: Rules)

  /** A configuration that names only the two locations. */
  function DefaultConfig(localBase: Path, folderName: string): (c: Config)
    ensures c.direction == TwoWay && c.rules.policy == NewerWins && !c.rules.dryRun
    ensures c.localBase == localBase && c.folderName == folderName
  {
    Config(localBase, folderName, ParseDirection(DEFAULT_DIRECTION), Rules(ParsePolicy(DEFAULT_POLICY), DEFAULT_DRY_RUN))
  }

  /** The id a dry-run push gives a folder it would have created, so that the
      walk can go on below it. */
  const SIMULATED_FOLDER_PREFIX: string := "simulated_drive_folder_id_for_"

  function SimulatedFolderId(name: string): (id: Id)
    ensures StartsWith(id, SIMULATED_FOLDER_PREFIX) && id[|SIMULATED_FOLDER_PREFIX|..] == name
  {
    SIMULATED_FOLDER_PREFIX + name
  }

  /** No simulated id names anything the store knows: listing one yields
      nothing. */
  lemma SimulatedIdUnknown(t: Tree, name: string)
    requires TreeValid(t)
    ensures !Known(t, SimulatedFolderId(name))
  {
    assert SimulatedFolderId(name)[0] == 's';
  }

  // ---------------------------------------------------------------------------
  // The per-file decisions
  // ---------------------------------------------------------------------------

  /** What the push walker does with a local file. */
  datatype PushAction = PushClash | PushNoLocalMtime | PushKeep | PushUpload(update: bool, existing: Option<Id>)

  /** `sync_to_drive` for a local file, given the remote item of the same name. */
  function PushDecision(localMtime: Option<int>, remote: Option<Entry>, policy: Policy): (a: PushAction)
    ensures remote.None? ==> a == PushUpload(false, None)
    ensures remote.Some? && remote.value.item.IsFolder() ==> a == PushClash
    ensures remote.Some? && !remote.value.item.IsFolder() && localMtime.None? ==> a == PushNoLocalMtime
    ensures remote.Some? && !remote.value.item.IsFolder() && localMtime.Some? ==>
      var rm := remote.value.item.modifiedTime;
      && (a.PushUpload? <==>
            rm.None? || policy == LocalWins || (policy == NewerWins && localMtime.value > rm.value))
      && (a.PushUpload? ==> a == PushUpload(true, Some(remote.value.id)))
      && (!a.PushUpload? ==> a == PushKeep)
  {
    match remote
    case None => PushUpload(false, None)
    case Some(e) =>
      if e.item.IsFolder() then PushClash
      else if localMtime.None? then PushNoLocalMtime
      else match e.item.modifiedTime
        case None => PushUpload(true, Some(e.id))
        case Some(rm) =>
          match policy
          case NewerWins => if localMtime.value > rm then PushUpload(true, Some(e.id)) else PushKeep
          case LocalWins => PushUpload(true, Some(e.id))
          case _ => PushKeep
  }

  /** What stands locally where the pull walker would put a remote file. */
  datatype LocalState = Absent | LocalDir | LocalFile(mtime: Option<int>)

  datatype PullAction = PullClash | PullDownload | PullKeep

  /** `sync_from_drive` for a remote file. */
  function PullDecision(local: LocalState, remoteMtime: Option<int>, policy: Policy): (a: PullAction)
    ensures local.Absent? ==> a == PullDownload
    ensures local.LocalDir? ==> a == PullClash
    ensures local.LocalFile? ==> a != PullClash
    ensures local.LocalFile? ==>
      (a == PullDownload <==>
         remoteMtime.None? || local.mtime.None? || policy == RemoteWins ||
         (policy == NewerWins && remoteMtime.value > local.mtime.value))
  {
    match local
    case Absent => PullDownload
    case LocalDir => PullClash
    case LocalFile(lm) =>
      if remoteMtime.None? || lm.None? then PullDownload
      else match policy
        case NewerWins => if remoteMtime.value > lm.value then PullDownload else PullKeep
        case RemoteWins => PullDownload
        case _ => PullKeep
  }

  /** For a file present on both sides with both times known, no policy makes
      the push upload it and the pull download it when both decide on the
      same snapshot of the remote item.  A two-way run does not decide on one
      snapshot, as the next lemma shows. */
  lemma PushPullExclusive(lm: int, e: Entry, policy: Policy)
    requires !e.item.IsFolder() && e.item.modifiedTime.Some?
    ensures !(PushDecision(Some(lm), Some(e), policy).PushUpload? &&
              PullDecision(LocalFile(Some(lm)), e.item.modifiedTime, policy) == PullDownload)
  {
  }

  /** In a two-way run the pull decides on the store the push left behind, and
      an update restamps the item with the server clock.  So under newer_wins
      a file whose local copy is newer than the remote one, but older than the
      server clock, is uploaded by the push and then downloaded straight back
      by the pull. */
  lemma UpdatedFileComesBack(env: Env, d: Drive, e: Entry, lm: int, blob: Blob)
    requires !e.item.IsFolder() && e.item.modifiedTime.Some?
    requires e.item.modifiedTime.value < lm < env.now
    ensures PushDecision(Some(lm), Some(e), NewerWins) == PushUpload(true, Some(e.id))
    ensures var (d', r) := UpdateFileOp(env, d, e.id, Some(e.item.name), blob);
      r.Some? ==>
        && e.id in d'.tree.items
        && d'.tree.items[e.id].modifiedTime == Some(env.now)
        && PullDecision(LocalFile(Some(lm)), d'.tree.items[e.id].modifiedTime, NewerWins) == PullDownload
  {
  }

  // ---------------------------------------------------------------------------
  // The push walk
  // ---------------------------------------------------------------------------

  /** `sync_to_drive(dir, folder)`: the remote folder is listed first; listing
      a local path that is not a directory raises.  Returns the store and
      whether an exception escaped. */
  function SyncToDriveOp(env: Env, d: Drive, fs: Fs, dir: Path, folder: Id, cfg: Rules): (r: (Drive, bool))
    ensures r.1 <==> !IsDir(fs, dir)
    decreases Under(fs, dir), 2, 0
  {
    var (d1, es) := ListFolderContentsOp(env, d, folder);
    if !IsDir(fs, dir) then (d1, true)
    else (PushEntriesSM(env, d1, fs, dir, folder, cfg, NameMap(es), ListDir(fs, dir)), false)
  }

  function PushEntriesSM(env: Env, d: Drive, fs: Fs, dir: Path, folder: Id, cfg: Rules,
                         m: map<string, Entry>, names: seq<string>): Drive
    requires IsDir(fs, dir)
    decreases Under(fs, dir), 1, |names|
  {
    if names == [] then d
    else PushEntriesSM(env, PushEntrySM(env, d, fs, dir, folder, cfg, m, names[0]), fs, dir, folder, cfg, m, names[1..])
  }

  /** One local entry.  A sub-directory is walked into the remote folder of its
      name, or into a newly created one (a simulated one in a dry run); a
      local file is uploaded when the decision says so and this is not a dry
      run.  The walk into a sub-directory cannot raise, since it is one. */
  function PushEntrySM(env: Env, d: Drive, fs: Fs, dir: Path, folder: Id, cfg: Rules,
                       m: map<string, Entry>, name: string): Drive
    requires IsDir(fs, dir)
    decreases Under(fs, dir), 0, 0
  {
    var p := dir + [name];
    var remote := Lookup(m, name);
    if IsDir(fs, p) then
      UnderShrinks(fs, dir, name);
      if remote.Some? && remote.value.item.IsFolder() then SyncToDriveOp(env, d, fs, p, remote.value.id, cfg).0
      else if remote.Some? then d
      else if !cfg.dryRun then
        var (d1, sub) := CreateFolderServiceOp(env, d, name, folder);
        if sub.None? then d1 else SyncToDriveOp(env, d1, fs, p, sub.value, cfg).0
      else SyncToDriveOp(env, d, fs, p, SimulatedFolderId(name), cfg).0
    else if IsFile(fs, p) then
      match PushDecision(Some(fs[p].data.mtime), remote, cfg.policy)
      case PushUpload(update, existing) =>
        if cfg.dryRun then d
        else UploadFileOp(env, d, name, folder, update, existing, fs[p].data.blob).0
      case _ => d
    else d
  }

  /** How one local entry is handled: a type clash sends no request; a file
      with no remote item of its name is uploaded as new; a directory with no
      remote item of its name is created (or, in a dry run, simulated) and
      walked into. */
  lemma PushEntryCases(env: Env, d: Drive, fs: Fs, dir: Path, folder: Id, cfg: Rules,
                       m: map<string, Entry>, name: string)
    requires IsDir(fs, dir)
    ensures var r := PushEntrySM(env, d, fs, dir, folder, cfg, m, name);
      var p := dir + [name];
      && (IsDir(fs, p) && name in m && !m[name].item.IsFolder() ==> r == d)
      && (IsFile(fs, p) && name in m && m[name].item.IsFolder() ==> r == d)
      && (IsFile(fs, p) && name !in m ==>
            r == if cfg.dryRun then d else UploadFileOp(env, d, name, folder, false, None, fs[p].data.blob).0)
      && (IsDir(fs, p) && name !in m && cfg.dryRun ==>
            r == SyncToDriveOp(env, d, fs, p, SimulatedFolderId(name), cfg).0)
      && (IsDir(fs, p) && name in m && m[name].item.IsFolder() ==>
            r == SyncToDriveOp(env, d, fs, p, m[name].id, cfg).0)
  {
  }

  lemma {:induction false} SyncToDriveValid(env: Env, d: Drive, fs: Fs, dir: Path, folder: Id, cfg: Rules)
    requires TreeValid(d.tree)
    ensures TreeValid(SyncToDriveOp(env, d, fs, dir, folder, cfg).0.tree)
    decreases Under(fs, dir), 2, 0
  {
    var (d1, es) := ListFolderContentsOp(env, d, folder);
    if IsDir(fs, dir) {
      PushEntriesValid(env, d1, fs, dir, folder, cfg, NameMap(es), ListDir(fs, dir));
    }
  }

  lemma {:induction false} PushEntriesValid(env: Env, d: Drive, fs: Fs, dir: Path, folder: Id, cfg: Rules,
                                            m: map<string, Entry>, names: seq<string>)
    requires TreeValid(d.tree) && IsDir(fs, dir)
    ensures TreeValid(PushEntriesSM(env, d, fs, dir, folder, cfg, m, names).tree)
    decreases Under(fs, dir), 1, |names|
  {
    if names != [] {
      PushEntryValid(env, d, fs, dir, folder, cfg, m, names[0]);
      PushEntriesValid(env, PushEntrySM(env, d, fs, dir, folder, cfg, m, names[0]), fs, dir, folder, cfg, m, names[1..]);
    }
  }

  lemma {:induction false} PushEntryValid(env: Env, d: Drive, fs: Fs, dir: Path, folder: Id, cfg: Rules,
                                          m: map<string, Entry>, name: string)
    requires TreeValid(d.tree) && IsDir(fs, dir)
    ensures TreeValid(PushEntrySM(env, d, fs, dir, folder, cfg, m, name).tree)
    decreases Under(fs, dir), 0, 0
  {
    var p := dir + [name];
    var remote := Lookup(m, name);
    if IsDir(fs, p) {
      UnderShrinks(fs, dir, name);
      if remote.Some? && remote.value.item.IsFolder() {
        SyncToDriveValid(env, d, fs, p, remote.value.id, cfg);
      } else if remote.None? && !cfg.dryRun {
        var (d1, sub) := CreateFolderServiceOp(env, d, name, folder);
        CreateFolderServiceValid(env, d, name, folder);
        if sub.Some? {
          SyncToDriveValid(env, d1, fs, p, sub.value, cfg);
        }
      } else if remote.None? {
        SyncToDriveValid(env, d, fs, p, SimulatedFolderId(name), cfg);
      }
    } else if IsFile(fs, p) {
      var a := PushDecision(Some(fs[p].data.mtime), remote, cfg.policy);
      if a.PushUpload? && !cfg.dryRun {
        UploadFileValid(env, d, name, folder, a.update, a.existing, fs[p].data.blob);
      }
    }
  }

  /** The requests appended after `before` are all listings. */
  ghost predicate OnlyListings(before: seq<Call>, after: seq<Call>)
  {
    before <= after && forall i :: |before| <= i < |after| ==> after[i].ListCall?
  }

  lemma OnlyListingsTrans(a: seq<Call>, b: seq<Call>, c: seq<Call>)
    requires OnlyListings(a, b) && OnlyListings(b, c)
    ensures OnlyListings(a, c)
  {
    forall i | |a| <= i < |c| ensures c[i].ListCall? {
      if i < |b| {
        assert c[i] == b[i];
      }
    }
  }

  /** A dry-run push sends no `create_folder` and no `upload_file` request:
      the store is unchanged and only listings are sent (of simulated ids
      too, which come back empty). */
  lemma {:induction false} DryRunPush(env: Env, d: Drive, fs: Fs, dir: Path, folder: Id, cfg: Rules)
    requires cfg.dryRun
    ensures var r := SyncToDriveOp(env, d, fs, dir, folder, cfg).0;
      r.tree == d.tree && OnlyListings(d.calls, r.calls)
    decreases Under(fs, dir), 2, 0
  {
    var (d1, es) := ListFolderContentsOp(env, d, folder);
    if IsDir(fs, dir) {
      DryRunPushEntries(env, d1, fs, dir, folder, cfg, NameMap(es), ListDir(fs, dir));
      OnlyListingsTrans(d.calls, d1.calls, SyncToDriveOp(env, d, fs, dir, folder, cfg).0.calls);
    }
  }

  lemma {:induction false} DryRunPushEntries(env: Env, d: Drive, fs: Fs, dir: Path, folder: Id, cfg: Rules,
                                             m: map<string, Entry>, names: seq<string>)
    requires cfg.dryRun && IsDir(fs, dir)
    ensures var r := PushEntriesSM(env, d, fs, dir, folder, cfg, m, names);
      r.tree == d.tree && OnlyListings(d.calls, r.calls)
    decreases Under(fs, dir), 1, |names|
  {
    if names != [] {
      var d1 := PushEntrySM(env, d, fs, dir, folder, cfg, m, names[0]);
      DryRunPushEntry(env, d, fs, dir, folder, cfg, m, names[0]);
      DryRunPushEntries(env, d1, fs, dir, folder, cfg, m, names[1..]);
      OnlyListingsTrans(d.calls, d1.calls, PushEntriesSM(env, d, fs, dir, folder, cfg, m, names).calls);
    }
  }

  lemma {:induction false} DryRunPushEntry(env: Env, d: Drive, fs: Fs, dir: Path, folder: Id, cfg: Rules,
                                           m: map<string, Entry>, name: string)
    requires cfg.dryRun && IsDir(fs, dir)
    ensures var r := PushEntrySM(env, d, fs, dir, folder, cfg, m, name);
      r.tree == d.tree && OnlyListings(d.calls, r.calls)
    decreases Under(fs, dir), 0, 0
  {
    var p := dir + [name];
    var remote := Lookup(m, name);
    if IsDir(fs, p) {
      UnderShrinks(fs, dir, name);
      if remote.Some? && remote.value.item.IsFolder() {
        DryRunPush(env, d, fs, p, remote.value.id, cfg);
      } else if remote.None? {
        DryRunPush(env, d, fs, p, SimulatedFolderId(name), cfg);
      }
    }
  }

  // ---------------------------------------------------------------------------
  // The pull walk
  // ---------------------------------------------------------------------------

  /** The entries are children of `folder` as the store holds them. */
  ghost predicate ListedChildren(t: Tree, folder: Id, es: seq<Entry>)
  {
    forall e :: e in es ==> e.id in t.items && t.items[e.id] == e.item && e.item.parent == folder
  }

  /** `sync_from_drive(folder, dir)`: the local directory is made first (in
      a dry run too), then the folder is listed; an empty listing ends the
      walk.  `now` is the local clock.  Returns the store, the filesystem and
      whether an exception escaped; the store's content never changes. */
  function SyncFromDriveOp(env: Env, d: Drive, fs: Fs, now: int, folder: Id, dir: Path, cfg: Rules)
    : (r: (Drive, Fs, bool))
    requires TreeValid(d.tree)
    ensures r.0.tree == d.tree
    decreases |d.tree.order| - Rank(d.tree, folder), 2, 0
  {
    var mk := MakeDirsOp(fs, dir, now);
    if mk.None? then (d, fs, true)
    else
      ListFolderContentsSpec(env, d, folder);
      var (d1, es) := ListFolderContentsOp(env, d, folder);
      if es == [] then (d1, mk.value, false)
      else PullItemsSM(env, d1, mk.value, now, folder, dir, cfg, es)
  }

  function PullItemsSM(env: Env, d: Drive, fs: Fs, now: int, folder: Id, dir: Path, cfg: Rules,
                       es: seq<Entry>): (r: (Drive, Fs, bool))
    requires TreeValid(d.tree) && ListedChildren(d.tree, folder, es)
    ensures r.0.tree == d.tree
    decreases |d.tree.order| - Rank(d.tree, folder), 1, |es|
  {
    if es == [] then (d, fs, false)
    else
      var r1 := PullItemSM(env, d, fs, now, folder, dir, cfg, es[0]);
      if r1.2 then r1
      else PullItemsSM(env, r1.0, r1.1, now, folder, dir, cfg, es[1..])
  }

  /** One remote item.  A folder is walked into the local directory of its
      name, which is created first unless this is a dry run; a local file in
      its way is a clash.  A file is downloaded when the decision says so,
      unless this is a dry run or the item is a Workspace document. */
  function PullItemSM(env: Env, d: Drive, fs: Fs, now: int, folder: Id, dir: Path, cfg: Rules,
                      e: Entry): (r: (Drive, Fs, bool))
    requires TreeValid(d.tree) && e.id in d.tree.items && d.tree.items[e.id] == e.item && e.item.parent == folder
    ensures r.0.tree == d.tree
    decreases |d.tree.order| - Rank(d.tree, folder), 0, 0
  {
    var p := dir + [e.item.name];
    if e.item.IsFolder() then
      RankOfChild(d.tree, e.id, folder);
      if p !in fs then
        if cfg.dryRun then SyncFromDriveOp(env, d, fs, now, e.id, p, cfg)
        else
          var mk := MakeDirsOp(fs, p, now);
          if mk.None? then (d, fs, true) else SyncFromDriveOp(env, d, mk.value, now, e.id, p, cfg)
      else if !IsDir(fs, p) then (d, fs, false)
      else SyncFromDriveOp(env, d, fs, now, e.id, p, cfg)
    else
      var local := if p !in fs then Absent else if IsDir(fs, p) then LocalDir else LocalFile(Some(Mtime(fs, p)));
      if PullDecision(local, e.item.modifiedTime, cfg.policy) != PullDownload then (d, fs, false)
      else if cfg.dryRun || e.item.IsWorkspace() then (d, fs, false)
      else
        var (d1, fs1, _) := DownloadFileOp(env, d, fs, now, e.id, dir, e.item.name);
        (d1, fs1, false)
  }

  /** How one remote item is handled: a type clash in either direction
      changes nothing, and a file the decision selects is downloaded (into
      `dir`) exactly when it is not a dry run and not a Workspace document. */
  lemma PullItemCases(env: Env, d: Drive, fs: Fs, now: int, folder: Id, dir: Path, cfg: Rules, e: Entry)
    requires TreeValid(d.tree) && e.id in d.tree.items && d.tree.items[e.id] == e.item && e.item.parent == folder
    ensures var r := PullItemSM(env, d, fs, now, folder, dir, cfg, e);
      var p := dir + [e.item.name];
      && (e.item.IsFolder() && IsFile(fs, p) ==> r == (d, fs, false))
      && (!e.item.IsFolder() && IsDir(fs, p) ==> r == (d, fs, false))
      && (!e.item.IsFolder() && p !in fs ==>
            r == if cfg.dryRun || e.item.IsWorkspace() then (d, fs, false)
                 else var (d1, fs1, _) := DownloadFileOp(env, d, fs, now, e.id, dir, e.item.name); (d1, fs1, false))
  {
  }

  /** The requests appended after `before` are listings and downloads, and
      every download is of a file with binary content, asked for outside a
      dry run. */
  ghost predicate PullCalls(t: Tree, dry: bool, before: seq<Call>, after: seq<Call>)
  {
    before <= after &&
    forall i :: |before| <= i < |after| ==>
      (after[i].ListCall? || after[i].DownloadCall?) &&
      (after[i].DownloadCall? ==> !dry && after[i].id in t.items && !t.items[after[i].id].IsWorkspace())
  }

  lemma PullCallsTrans(t: Tree, dry: bool, a: seq<Call>, b: seq<Call>, c: seq<Call>)
    requires PullCalls(t, dry, a, b) && PullCalls(t, dry, b, c)
    ensures PullCalls(t, dry, a, c)
  {
    forall i | |a| <= i < |c| ensures
      (c[i].ListCall? || c[i].DownloadCall?) &&
      (c[i].DownloadCall? ==> !dry && c[i].id in t.items && !t.items[c[i].id].IsWorkspace())
    {
      if i < |b| {
        assert c[i] == b[i];
      }
    }
  }

  /** The pull never mutates the store and never asks for a Workspace
      document; in a dry run it sends no download at all, and it leaves every
      local file as it was (it may still create directories). */
  lemma {:induction false} PullSafe(env: Env, d: Drive, fs: Fs, now: int, folder: Id, dir: Path, cfg: Rules)
    requires TreeValid(d.tree)
    ensures var r := SyncFromDriveOp(env, d, fs, now, folder, dir, cfg);
      PullCalls(d.tree, cfg.dryRun, d.calls, r.0.calls) && (cfg.dryRun ==> SameFiles(fs, r.1))
    decreases |d.tree.order| - Rank(d.tree, folder), 2, 0
  {
    var mk := MakeDirsOp(fs, dir, now);
    if mk.Some? {
      MakeDirsKeepsFiles(fs, dir, now);
      ListFolderContentsSpec(env, d, folder);
      var (d1, es) := ListFolderContentsOp(env, d, folder);
      assert PullCalls(d.tree, cfg.dryRun, d.calls, d1.calls);
      if es != [] {
        PullItemsSafe(env, d1, mk.value, now, folder, dir, cfg, es);
        var r := PullItemsSM(env, d1, mk.value, now, folder, dir, cfg, es);
        PullCallsTrans(d.tree, cfg.dryRun, d.calls, d1.calls, r.0.calls);
        if cfg.dryRun {
          SameFilesTrans(fs, mk.value, r.1);
        }
      }
    }
  }

  lemma {:induction false} PullItemsSafe(env: Env, d: Drive, fs: Fs, now: int, folder: Id, dir: Path,
                                         cfg: Rules, es: seq<Entry>)
    requires TreeValid(d.tree) && ListedChildren(d.tree, folder, es)
    ensures var r := PullItemsSM(env, d, fs, now, folder, dir, cfg, es);
      PullCalls(d.tree, cfg.dryRun, d.calls, r.0.calls) && (cfg.dryRun ==> SameFiles(fs, r.1))
    decreases |d.tree.order| - Rank(d.tree, folder), 1, |es|
  {
    if es != [] {
      var r1 := PullItemSM(env, d, fs, now, folder, dir, cfg, es[0]);
      PullItemSafe(env, d, fs, now, folder, dir, cfg, es[0]);
      if !r1.2 {
        PullItemsSafe(env, r1.0, r1.1, now, folder, dir, cfg, es[1..]);
        var r := PullItemsSM(env, d, fs, now, folder, dir, cfg, es);
        PullCallsTrans(d.tree, cfg.dryRun, d.calls, r1.0.calls, r.0.calls);
        if cfg.dryRun {
          SameFilesTrans(fs, r1.1, r.1);
        }
      }
    }
  }

  lemma {:induction false} PullItemSafe(env: Env, d: Drive, fs: Fs, now: int, folder: Id, dir: Path,
                                        cfg: Rules, e: Entry)
    requires TreeValid(d.tree) && e.id in d.tree.items && d.tree.items[e.id] == e.item && e.item.parent == folder
    ensures var r := PullItemSM(env, d, fs, now, folder, dir, cfg, e);
      PullCalls(d.tree, cfg.dryRun, d.calls, r.0.calls) && (cfg.dryRun ==> SameFiles(fs, r.1))
    decreases |d.tree.order| - Rank(d.tree, folder), 0, 0
  {
    var p := dir + [e.item.name];
    if e.item.IsFolder() {
      RankOfChild(d.tree, e.id, folder);
      if p !in fs {
        if cfg.dryRun {
          PullSafe(env, d, fs, now, e.id, p, cfg);
        } else {
          var mk := MakeDirsOp(fs, p, now);
          if mk.Some? {
            PullSafe(env, d, mk.value, now, e.id, p, cfg);
          }
        }
      } else if IsDir(fs, p) {
        PullSafe(env, d, fs, now, e.id, p, cfg);
      }
    }
  }

  // ---------------------------------------------------------------------------
  // The base folder and the run
  // ---------------------------------------------------------------------------

  /** What `_ensure_drive_base_folder_exists` comes back with: an id, None
      (a dry run that did not find the folder), or the exception it raises when
      creating the folder fails. */
  datatype Ensured = BaseFolder(id: Id) | NoBaseFolder | CreateFailed

  function EnsureOp(env: Env, d: Drive, name: string, cached: Option<Id>, dry: bool): (Drive, Ensured)
  {
    if cached.Some? then (d, BaseFolder(cached.value))
    else
      var (d1, found) := GetItemIdOp(env, d, name, ROOT, true);
      if found.Some? then (d1, BaseFolder(found.value))
      else if dry then (d1, NoBaseFolder)
      else
        var (d2, created) := CreateFolderServiceOp(env, d1, name, ROOT);
        if created.Some? then (d2, BaseFolder(created.value)) else (d2, CreateFailed)
  }

  /** The base folder is resolved once: with an id cached no request is sent;
      a dry run never creates the folder; and an id once resolved, when cached,
      is returned as it is by every later call. */
  lemma EnsureCaches(env: Env, d: Drive, name: string, cached: Option<Id>, dry: bool, later: Drive)
    ensures cached.Some? ==> EnsureOp(env, d, name, cached, dry) == (d, BaseFolder(cached.value))
    ensures var (d1, r) := EnsureOp(env, d, name, cached, dry);
      && (dry ==> d1.tree == d.tree && (r.NoBaseFolder? ==> d1.calls == d.calls + [FindCall(name, ROOT)]))
      && (r.BaseFolder? ==> EnsureOp(env, later, name, Some(r.id), dry) == (later, BaseFolder(r.id)))
      && !(dry && r.CreateFailed?)
  {
  }

  lemma EnsureValid(env: Env, d: Drive, name: string, cached: Option<Id>, dry: bool)
    requires TreeValid(d.tree)
    ensures TreeValid(EnsureOp(env, d, name, cached, dry).0.tree)
  {
    if cached.None? {
      var (d1, found) := GetItemIdOp(env, d, name, ROOT, true);
      CreateFolderServiceValid(env, d1, name, ROOT);
    }
  }

  /** How `run` ends: normally, without a base folder, or with an exception
      escaping from the base-folder creation or from listing a local base
      path that is not a directory. */
  datatype RunOutcome = Finished | NoBase | Raised

  /** `run`: resolve the base folder, then push, pull, push-then-pull or
      nothing, by direction.  Returns the store, the filesystem, the cached
      base id and the outcome. */
  function RunOp(env: Env, d: Drive, fs: Fs, now: int, cfg: Config, cached: Option<Id>)
    : (Drive, Fs, Option<Id>, RunOutcome)
    requires TreeValid(d.tree)
  {
    EnsureValid(env, d, cfg.folderName, cached, cfg.rules.dryRun);
    var (d1, e) := EnsureOp(env, d, cfg.folderName, cached, cfg.rules.dryRun);
    if e.CreateFailed? then (d1, fs, cached, Raised)
    else if e.NoBaseFolder? then (d1, fs, cached, NoBase)
    else
      var base := e.id;
      match cfg.direction
      case Up =>
        var (d2, raised) := SyncToDriveOp(env, d1, fs, cfg.localBase, base, cfg.rules);
        (d2, fs, Some(base), if raised then Raised else Finished)
      case Down =>
        var (d2, fs2, raised) := SyncFromDriveOp(env, d1, fs, now, base, cfg.localBase, cfg.rules);
        (d2, fs2, Some(base), if raised then Raised else Finished)
      case TwoWay =>
        var (d2, raised) := SyncToDriveOp(env, d1, fs, cfg.localBase, base, cfg.rules);
        if raised then (d2, fs, Some(base), Raised)
        else
          SyncToDriveValid(env, d1, fs, cfg.localBase, base, cfg.rules);
          var (d3, fs3, raised2) := SyncFromDriveOp(env, d2, fs, now, base, cfg.localBase, cfg.rules);
          (d3, fs3, Some(base), if raised2 then Raised else Finished)
      case OtherDirection(_) => (d1, fs, Some(base), Finished)
  }

  /** A run ends in a valid store, whatever the direction. */
  lemma RunValid(env: Env, d: Drive, fs: Fs, now: int, cfg: Config, cached: Option<Id>)
    requires TreeValid(d.tree)
    ensures TreeValid(RunOp(env, d, fs, now, cfg, cached).0.tree)
  {
    EnsureValid(env, d, cfg.folderName, cached, cfg.rules.dryRun);
    var (d1, e) := EnsureOp(env, d, cfg.folderName, cached, cfg.rules.dryRun);
    if e.BaseFolder? && (cfg.direction.Up? || cfg.direction.TwoWay?) {
      SyncToDriveValid(env, d1, fs, cfg.localBase, e.id, cfg.rules);
    }
  }

  /** "two-way" is exactly an "up" run followed by a "down" run that finds
      the base folder in the cache, and the second runs only when the first
      finished normally. */
  lemma TwoWayIsUpThenDown(env: Env, d: Drive, fs: Fs, now: int, cfg: Config, cached: Option<Id>)
    requires TreeValid(d.tree) && cfg.direction == TwoWay
    ensures var up := RunOp(env, d, fs, now, cfg.(direction := Up), cached);
      && TreeValid(up.0.tree)
      && RunOp(env, d, fs, now, cfg, cached) ==
           if up.3 == Finished then RunOp(env, up.0, up.1, now, cfg.(direction := Down), up.2) else up
  {
    RunValid(env, d, fs, now, cfg.(direction := Up), cached);
  }

  /** `run` syncs nothing when no base folder was resolved or when the
      direction is unknown: only the base-folder requests are sent and no
      local file or directory changes. */
  lemma RunWithoutSync(env: Env, d: Drive, fs: Fs, now: int, cfg: Config, cached: Option<Id>)
    requires TreeValid(d.tree)
    ensures var (d', fs', c', out) := RunOp(env, d, fs, now, cfg, cached);
      var (d1, e) := EnsureOp(env, d, cfg.folderName, cached, cfg.rules.dryRun);
      (!e.BaseFolder? || cfg.direction.OtherDirection?) ==> d' == d1 && fs' == fs
    ensures var out := RunOp(env, d, fs, now, cfg, cached).3;
      var e := EnsureOp(env, d, cfg.folderName, cached, cfg.rules.dryRun).1;
      (out == NoBase <==> e.NoBaseFolder?) && (e.CreateFailed? ==> out == Raised)
  {
  }

  // ---------------------------------------------------------------------------
  // The manager object
  // ---------------------------------------------------------------------------

  class Manager {
    const store: Store
    const local: LocalFs
    const config: Config
    var driveBaseFolderId: Option<Id>

    constructor (store: Store, local: LocalFs, config: Config)
      ensures this.store == store && this.local == local && this.config == config
      ensures driveBaseFolderId == None
    {
      this.store := store;
      this.local := local;
      this.config := config;
      driveBaseFolderId := None;
    }

    method EnsureDriveBaseFolderExists() returns (r: Ensured)
      requires store.Valid()
      modifies this, store
      ensures store.Valid()
      ensures (store.Value(), r) ==
        EnsureOp(store.env, old(store.Value()), config.folderName, old(driveBaseFolderId), config.rules.dryRun)
      ensures driveBaseFolderId == (if r.BaseFolder? then Some(r.id) else old(driveBaseFolderId))
    {
      if driveBaseFolderId.Some? {
        return BaseFolder(driveBaseFolderId.value);
      }
      var folderId := GetItemId(store, config.folderName, ROOT, true);
      if folderId.None? {
        if !config.rules.dryRun {
          folderId := CreateFolder(store, config.folderName, ROOT);
          if folderId.None? {
            return CreateFailed;
          }
        } else {
          return NoBaseFolder;
        }
      }
      driveBaseFolderId := folderId;
      r := BaseFolder(folderId.value);
    }

    method SyncToDrive(dir: Path, folder: Id) returns (raised: bool)
      requires store.Valid()
      modifies store
      ensures store.Valid()
      ensures (store.Value(), raised) == SyncToDriveOp(store.env, old(store.Value()), local.entries, dir, folder, config.rules)
      decreases Under(local.entries, dir)
    {
      var remoteItems := ListFolderContents(store, folder);
      var remoteMap := NameMap(remoteItems);
      if !IsDir(local.entries, dir) {
        return true;
      }
      ghost var d0 := store.Value();
      var names := ListDir(local.entries, dir);
      for i := 0 to |names|
        invariant store.Valid()
        invariant PushEntriesSM(store.env, store.Value(), local.entries, dir, folder, config.rules, remoteMap, names[i..]) ==
          PushEntriesSM(store.env, d0, local.entries, dir, folder, config.rules, remoteMap, names)
      {
        assert names[i..][1..] == names[i + 1..];
        var name := names[i];
        var p := dir + [name];
        var remote := Lookup(remoteMap, name);
        if IsDir(local.entries, p) {
          var sub: Id;
          if remote.Some? && remote.value.item.IsFolder() {
            sub := remote.value.id;
          } else {
            if remote.Some? {
              continue;
            }
            if !config.rules.dryRun {
              var created := CreateFolder(store, name, folder);
              if created.None? {
                continue;
              }
              sub := created.value;
            } else {
              sub := SimulatedFolderId(name);
            }
          }
          UnderShrinks(local.entries, dir, name);
          var _ := SyncToDrive(p, sub);
        } else if IsFile(local.entries, p) {
          var data := local.entries[p].data;
          var action := PushDecision(Some(data.mtime), remote, config.rules.policy);
          if action.PushUpload? && !config.rules.dryRun {
            var _ := UploadFile(store, name, folder, action.update, action.existing, data.blob);
          }
        }
      }
      raised := false;
    }

    method SyncFromDrive(folder: Id, dir: Path) returns (raised: bool)
      requires store.Valid()
      modifies store, local
      ensures store.Valid() && store.tree == old(store.tree)
      ensures (store.Value(), local.entries, raised) ==
        SyncFromDriveOp(store.env, old(store.Value()), old(local.entries), local.now, folder, dir, config.rules)
      decreases |store.tree.order| - Rank(store.tree, folder)
    {
      var made := local.MakeDirs(dir);
      if !made {
        return true;
      }
      ListFolderContentsSpec(store.env, store.Value(), folder);
      var remoteItems := ListFolderContents(store, folder);
      if remoteItems == [] {
        return false;
      }
      ghost var d0, fs0 := store.Value(), local.entries;
      for i := 0 to |remoteItems|
        invariant store.Valid() && store.tree == old(store.tree)
        invariant PullItemsSM(store.env, store.Value(), local.entries, local.now, folder, dir, config.rules, remoteItems[i..]) ==
          PullItemsSM(store.env, d0, fs0, local.now, folder, dir, config.rules, remoteItems)
      {
        assert remoteItems[i..][1..] == remoteItems[i + 1..];
        var e := remoteItems[i];
        assert e in remoteItems;
        var p := dir + [e.item.name];
        if e.item.IsFolder() {
          RankOfChild(store.tree, e.id, folder);
          if p !in local.entries {
            if !config.rules.dryRun {
              var ok := local.MakeDirs(p);
              if !ok {
                return true;
              }
            }
          } else if !IsDir(local.entries, p) {
            continue;
          }
          var r := SyncFromDrive(e.id, p);
          if r {
            return true;
          }
        } else {
          var state := if p !in local.entries then Absent
                       else if IsDir(local.entries, p) then LocalDir
                       else LocalFile(Some(Mtime(local.entries, p)));
          var action := PullDecision(state, e.item.modifiedTime, config.rules.policy);
          if action == PullDownload && !config.rules.dryRun && !e.item.IsWorkspace() {
            var _ := DownloadFile(store, local, e.id, dir, e.item.name);
          }
        }
      }
      raised := false;
    }

    method Run() returns (outcome: RunOutcome)
      requires store.Valid()
      modifies this, store, local
      ensures store.Valid()
      ensures (store.Value(), local.entries, driveBaseFolderId, outcome) ==
        RunOp(store.env, old(store.Value()), old(local.entries), local.now, config, old(driveBaseFolderId))
    {
      var ensured := EnsureDriveBaseFolderExists();
      if ensured.CreateFailed? {
        return Raised;
      }
      if ensured.NoBaseFolder? && config.direction != Down {
        return NoBase;
      }
      if driveBaseFolderId.None? {
        return NoBase;
      }
      var base := driveBaseFolderId.value;
      match config.direction {
        case Up =>
          var raised := SyncToDrive(config.localBase, base);
          outcome := if raised then Raised else Finished;
        case Down =>
          var raised := SyncFromDrive(base, config.localBase);
          outcome := if raised then Raised else Finished;
        case TwoWay =>
          var raised := SyncToDrive(config.localBase, base);
          if raised {
            return Raised;
          }
          var raised2 := SyncFromDrive(base, config.localBase);
          outcome := if raised2 then Raised else Finished;
        case OtherDirection(_) =>
          outcome := Finished;
      }
    }
  }
}
