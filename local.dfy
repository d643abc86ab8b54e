/** The local filesystem as the sync engine sees it: a map from paths (sequences
    of names below the filesystem's top directory `[]`) to nodes.  A directory
    lists its entries in the order the operating system returns them; a file
    carries its modification time and its content. */
module Local {
  import opened Common

  type Path = seq<string>

  /** What `stat` and a read of a regular file give: mtime (ms) and content. */
  datatype FileData = FileData(mtime: int, blob: Blob)

  datatype Node = Dir(children: seq<string>, mtime: int) | File(data: FileData)

  type Fs = map<Path, Node>

  predicate IsDir(fs: Fs, p: Path)
  {
    p in fs && fs[p].Dir?
  }

  predicate IsFile(fs: Fs, p: Path)
  {
    p in fs && fs[p].File?
  }

  /** `os.path.getmtime`, which works on directories as well as files. */
  function Mtime(fs: Fs, p: Path): int
    requires p in fs
  {
    match fs[p]
    case Dir(_, m) => m
    case File(d) => d.mtime
  }

  /** `os.listdir` / `Path.iterdir` of a directory. */
  function ListDir(fs: Fs, p: Path): seq<string>
  {
    if IsDir(fs, p) then fs[p].children else []
  }

  function Parent(p: Path): Path
    requires p != []
  {
    p[..|p| - 1]
  }

  /** The paths of the filesystem at or below `p`. */
  ghost function Under(fs: Fs, p: Path): set<Path>
  {
    set q | q in fs && p <= q
  }

  /** Descending into an entry of an existing directory leaves fewer paths to
      visit: the measure on which the upload walkers terminate. */
  lemma UnderShrinks(fs: Fs, p: Path, name: string)
    requires p in fs
    ensures Under(fs, p + [name]) < Under(fs, p)
  {
    forall q | q in Under(fs, p + [name]) ensures q in Under(fs, p) {
      assert q[..|p|] == (p + [name])[..|p|] == p;
    }
    assert p in Under(fs, p);
  }

  function AddName(names: seq<string>, n: string): (r: seq<string>)
  {
    if n in names then names else names + [n]
  }

  function RemoveName(names: seq<string>, n: string): (r: seq<string>)
    ensures n !in r
    ensures forall x :: x in r <==> x in names && x != n
  {
    if names == [] then []
    else if names[0] == n then RemoveName(names[1..], n)
    else [names[0]] + RemoveName(names[1..], n)
  }

  /** Puts `node` at `p` and records its name in the parent directory. */
  function Link(fs: Fs, p: Path, node: Node): (r: Fs)
    requires p != []
    ensures p in r && r[p] == node
  {
    var par := Parent(p);
    var fs1 := if IsDir(fs, par) then fs[par := Dir(AddName(fs[par].children, p[|p| - 1]), fs[par].mtime)] else fs;
    fs1[p := node]
  }

  /** Removes `p` and its name from the parent directory. */
  function Unlink(fs: Fs, p: Path): (r: Fs)
    requires p != []
    ensures p !in r
  {
    var par := Parent(p);
    var fs1 := fs - {p};
    if IsDir(fs1, par) then fs1[par := Dir(RemoveName(fs1[par].children, p[|p| - 1]), fs1[par].mtime)] else fs1
  }

  /** `os.makedirs(p, exist_ok=True)`: creates every missing directory on the
      way to `p`; it fails when a file stands on the way or at `p`. */
  function MakeDirsOp(fs: Fs, p: Path, now: int): (r: Option<Fs>)
    ensures r.Some? ==> IsDir(r.value, p)
    ensures (forall q :: q <= p ==> IsDir(fs, q)) ==> r == Some(fs)
    decreases |p|
  {
    if p == [] then (if IsDir(fs, []) then Some(fs) else None)
    else
      match MakeDirsOp(fs, Parent(p), now)
      case None => None
      case Some(fs1) =>
        if IsDir(fs1, p) then Some(fs1)
        else if p in fs1 then None
        else Some(Link(fs1, p, Dir([], now)))
  }

  /** The two filesystems hold the same files with the same content. */
  ghost predicate SameFiles(fs: Fs, fs': Fs)
  {
    forall q :: (IsFile(fs, q) <==> IsFile(fs', q)) && (IsFile(fs, q) ==> fs'[q] == fs[q])
  }

  lemma SameFilesTrans(a: Fs, b: Fs, c: Fs)
    requires SameFiles(a, b) && SameFiles(b, c)
    ensures SameFiles(a, c)
  {
  }

  /** Creating directories never touches a file. */
  lemma {:induction false} MakeDirsKeepsFiles(fs: Fs, p: Path, now: int)
    ensures MakeDirsOp(fs, p, now).Some? ==> SameFiles(fs, MakeDirsOp(fs, p, now).value)
    decreases |p|
  {
    if p != [] {
      MakeDirsKeepsFiles(fs, Parent(p), now);
      var r1 := MakeDirsOp(fs, Parent(p), now);
      if r1.Some? && !IsDir(r1.value, p) && p !in r1.value {
        var fs1 := r1.value;
        var fs2 := Link(fs1, p, Dir([], now));
        forall q ensures (IsFile(fs1, q) <==> IsFile(fs2, q)) && (IsFile(fs1, q) ==> fs2[q] == fs1[q]) {
        }
        SameFilesTrans(fs, fs1, fs2);
      }
    }
  }

  /** `open(p, 'wb')` and a write: creates or replaces the file at `p`; it fails
      when `p` is a directory or its parent is not one. */
  function WriteFileOp(fs: Fs, p: Path, data: FileData): (r: Option<Fs>)
  {
    if p == [] || !IsDir(fs, Parent(p)) || IsDir(fs, p) then None
    else Some(Link(fs, p, File(data)))
  }

  /** `os.rename(src, dst)` of a file: replaces a file at `dst`, fails on a
      directory at `dst`. */
  function RenameOp(fs: Fs, src: Path, dst: Path): (r: Option<Fs>)
  {
    if src == [] || !IsFile(fs, src) || dst == [] || !IsDir(fs, Parent(dst)) || IsDir(fs, dst) then None
    else if src == dst then Some(fs)
    else Some(Link(Unlink(fs, src), dst, fs[src]))
  }

  /** `os.remove(p)` of a file. */
  function RemoveOp(fs: Fs, p: Path): (r: Option<Fs>)
  {
    if p == [] || !IsFile(fs, p) then None else Some(Unlink(fs, p))
  }

  // ---------------------------------------------------------------------------
  // Well-formed filesystems
  // ---------------------------------------------------------------------------

  /** The root is a directory and every other path sits in a directory. */
  ghost predicate WellFormed(fs: Fs)
  {
    IsDir(fs, []) && forall q :: q in fs && q != [] ==> IsDir(fs, Parent(q))
  }

  /** In a well-formed filesystem every ancestor of a directory is one. */
  lemma {:induction false} DirAncestors(fs: Fs, p: Path)
    requires WellFormed(fs) && IsDir(fs, p)
    ensures forall q :: q <= p ==> IsDir(fs, q)
    decreases |p|
  {
    if p != [] {
      DirAncestors(fs, Parent(p));
      forall q | q <= p ensures IsDir(fs, q) {
        if q != p {
          assert q <= Parent(p);
        }
      }
    }
  }

  /** `exist_ok=True`: making a directory that exists succeeds and changes
      nothing. */
  lemma MakeDirsExisting(fs: Fs, p: Path, now: int)
    requires WellFormed(fs) && IsDir(fs, p)
    ensures MakeDirsOp(fs, p, now) == Some(fs)
  {
    DirAncestors(fs, p);
  }

  /** Linking a node into an existing directory keeps the filesystem well
      formed, as long as no directory is replaced. */
  lemma LinkWellFormed(fs: Fs, p: Path, node: Node)
    requires WellFormed(fs) && p != [] && IsDir(fs, Parent(p)) && !IsDir(fs, p)
    ensures WellFormed(Link(fs, p, node))
  {
    var r := Link(fs, p, node);
    assert |Parent(p)| < |p|;
    forall q | q in r && q != [] ensures IsDir(r, Parent(q)) {
      assert q in fs || q == p;
      if q in fs {
        assert Parent(q) != p;
      }
    }
  }

  /** Removing a file keeps the filesystem well formed. */
  lemma UnlinkWellFormed(fs: Fs, p: Path)
    requires WellFormed(fs) && p != [] && IsFile(fs, p)
    ensures WellFormed(Unlink(fs, p))
  {
    var r := Unlink(fs, p);
    forall q | q in r && q != [] ensures IsDir(r, Parent(q)) {
      assert q in fs && q != p;
      assert Parent(q) != p;
    }
  }

  lemma {:induction false} MakeDirsWellFormed(fs: Fs, p: Path, now: int)
    requires WellFormed(fs)
    ensures MakeDirsOp(fs, p, now).Some? ==> WellFormed(MakeDirsOp(fs, p, now).value)
    decreases |p|
  {
    if p != [] {
      MakeDirsWellFormed(fs, Parent(p), now);
      var r1 := MakeDirsOp(fs, Parent(p), now);
      if r1.Some? && !IsDir(r1.value, p) && p !in r1.value {
        LinkWellFormed(r1.value, p, Dir([], now));
      }
    }
  }

  lemma WriteFileWellFormed(fs: Fs, p: Path, data: FileData)
    requires WellFormed(fs)
    ensures WriteFileOp(fs, p, data).Some? ==> WellFormed(WriteFileOp(fs, p, data).value)
  {
    if WriteFileOp(fs, p, data).Some? {
      LinkWellFormed(fs, p, File(data));
    }
  }

  lemma RenameWellFormed(fs: Fs, src: Path, dst: Path)
    requires WellFormed(fs)
    ensures RenameOp(fs, src, dst).Some? ==> WellFormed(RenameOp(fs, src, dst).value)
  {
    if RenameOp(fs, src, dst).Some? && src != dst {
      UnlinkWellFormed(fs, src);
      var fs1 := Unlink(fs, src);
      assert Parent(dst) != src;
      LinkWellFormed(fs1, dst, fs[src]);
    }
  }

  lemma RemoveWellFormed(fs: Fs, p: Path)
    requires WellFormed(fs)
    ensures RemoveOp(fs, p).Some? ==> WellFormed(RemoveOp(fs, p).value)
  {
    if RemoveOp(fs, p).Some? {
      UnlinkWellFormed(fs, p);
    }
  }

  /** The filesystem as an object the walkers call into; `now` is the local
      clock, which stamps the files and directories they write. */
  class LocalFs {
    var entries: Fs
    const now: int

    constructor (entries: Fs, now: int)
      ensures this.entries == entries && this.now == now
    {
      this.entries := entries;
      this.now := now;
    }

    method MakeDirs(p: Path) returns (ok: bool)
      modifies this
      ensures var r := MakeDirsOp(old(entries), p, now);
        ok == r.Some? && entries == (if ok then r.value else old(entries))
      ensures WellFormed(old(entries)) ==> WellFormed(entries)
    {
      if WellFormed(entries) {
        MakeDirsWellFormed(entries, p, now);
      }
      var r := MakeDirsOp(entries, p, now);
      ok := r.Some?;
      if ok {
        entries := r.value;
      }
    }

    method WriteFile(p: Path, data: FileData) returns (ok: bool)
      modifies this
      ensures var r := WriteFileOp(old(entries), p, data);
        ok == r.Some? && entries == (if ok then r.value else old(entries))
      ensures WellFormed(old(entries)) ==> WellFormed(entries)
    {
      if WellFormed(entries) {
        WriteFileWellFormed(entries, p, data);
      }
      var r := WriteFileOp(entries, p, data);
      ok := r.Some?;
      if ok {
        entries := r.value;
      }
    }

    method Rename(src: Path, dst: Path) returns (ok: bool)
      modifies this
      ensures var r := RenameOp(old(entries), src, dst);
        ok == r.Some? && entries == (if ok then r.value else old(entries))
      ensures WellFormed(old(entries)) ==> WellFormed(entries)
    {
      if WellFormed(entries) {
        RenameWellFormed(entries, src, dst);
      }
      var r := RenameOp(entries, src, dst);
      ok := r.Some?;
      if ok {
        entries := r.value;
      }
    }

    method Remove(p: Path) returns (ok: bool)
      modifies this
      ensures var r := RemoveOp(old(entries), p);
        ok == r.Some? && entries == (if ok then r.value else old(entries))
      ensures WellFormed(old(entries)) ==> WellFormed(entries)
    {
      if WellFormed(entries) {
        RemoveWellFormed(entries, p);
      }
      var r := RemoveOp(entries, p);
      ok := r.Some?;
      if ok {
        entries := r.value;
      }
    }
  }
}
