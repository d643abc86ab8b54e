/** The remote folder store (a Google Drive account) as the sync engine sees it.

    The store holds items (files and folders) by id, each with one parent; the
    pseudo-folder "root" is the top of the account.  Every request sent to the
    store is appended to a log, so that "no request is made" and "no mutating
    request is made" can be stated about the walkers.  Which requests fail is
    fixed by an environment: a request addressed to an id in `faulty` fails as
    an API error would, and so does any request naming an id the store does not
    know. */
module Remote {
  import opened Common

  type Id = string

  /** The id of the account's top folder ("My Drive"). */
  const ROOT: Id := "root"
  const FOLDER_MIME: string := "application/vnd.google-apps.folder"
  /** Every Google Workspace type (Docs, Sheets, folders, ...) carries this prefix. */
  const WORKSPACE_PREFIX: string := "application/vnd.google-apps"
  /** The type the store gives to an uploaded local file. */
  const BINARY_MIME: string := "application/octet-stream"
  /** Items per page when a listing request names no page size. */
  const DEFAULT_PAGE_SIZE: nat := 100

  /** The id the store gives to the n-th item created in it. */
  function IdFor(n: nat): Id
  {
    "id" + NatStr(n)
  }

  lemma IdForInjective(a: nat, b: nat)
    requires IdFor(a) == IdFor(b)
    ensures a == b
  {
    assert NatStr(a) == IdFor(a)[2..];
    assert NatStr(b) == IdFor(b)[2..];
    NatStrInjective(a, b);
  }

  datatype Item = Item(name: string, parent: Id, mimeType: string,
                       modifiedTime: Option<int>, content: Option<Blob>)
  {
    predicate IsFolder()
    {
      mimeType == FOLDER_MIME
    }

    predicate IsWorkspace()
    {
      StartsWith(mimeType, WORKSPACE_PREFIX)
    }

    /** The `size` field of the item's metadata; folders and Workspace
        documents have none. */
    function Size(): Option<nat>
    {
      if content.Some? then Some(content.value.size) else None
    }

    /** The `md5Checksum` field of the item's metadata. */
    function Md5(): Option<Digest>
    {
      if content.Some? then Some(content.value.md5) else None
    }
  }

  /** One element of a listing: an item's metadata together with its id. */
  datatype Entry = Entry(id: Id, item: Item)

  /** One page of a listing and the token of the next page, if any. */
  datatype Page = Page(entries: seq<Entry>, next: Option<nat>)

  /** A request sent to the store. */
  datatype Call =
    | ListCall(folder: Id)
    | FindCall(name: string, parent: Id)
    | CreateFolderCall(name: string, parent: Id)
    | CreateFileCall(name: string, parent: Id)
    | UpdateFileCall(id: Id)
    | DownloadCall(id: Id)
  {
    predicate Mutating()
    {
      CreateFolderCall? || CreateFileCall? || UpdateFileCall?
    }
  }

  /** The store's content: items by id, and the ids in creation order (the
      order in which listings return them). */
  datatype Tree = Tree(items: map<Id, Item>, order: seq<Id>)

  /** How the store behaves: which ids requests fail on, and the server clock
      that stamps `modifiedTime` on writes. */
  datatype Env = Env(faulty: set<Id>, now: int)

  /** The store's content together with the log of requests sent to it. */
  datatype Drive = Drive(tree: Tree, calls: seq<Call>)

  /** The i-th item in creation order has a parent that is the root or an item
      created before it. */
  ghost predicate ParentBefore(t: Tree, i: nat)
    requires i < |t.order|
  {
    t.order[i] in t.items &&
    (t.items[t.order[i]].parent == ROOT || t.items[t.order[i]].parent in t.order[..i])
  }

  /** The store is a tree under ROOT: ids are issued in sequence, every item is
      listed once in `order`, and parents are created before their children. */
  ghost predicate TreeValid(t: Tree)
  {
    && (forall i :: 0 <= i < |t.order| ==> t.order[i] == IdFor(i))
    && (forall id :: id in t.items <==> id in t.order)
    && (forall i :: 0 <= i < |t.order| ==> ParentBefore(t, i))
  }

  predicate Known(t: Tree, id: Id)
  {
    id == ROOT || id in t.items
  }

  predicate IsFolderId(t: Tree, id: Id)
  {
    id == ROOT || (id in t.items && t.items[id].IsFolder())
  }

  /** The children of `folder` among `ids`, in the order of `ids`. */
  function ChildrenIn(t: Tree, folder: Id, ids: seq<Id>): (r: seq<Entry>)
    ensures forall e :: e in r ==>
      e.id in ids && e.id in t.items && t.items[e.id] == e.item && e.item.parent == folder
    ensures forall id :: id in ids && id in t.items && t.items[id].parent == folder ==>
      Entry(id, t.items[id]) in r
  {
    if ids == [] then []
    else
      var rest := ChildrenIn(t, folder, ids[..|ids| - 1]);
      var id := ids[|ids| - 1];
      assert forall x :: x in ids ==> x in ids[..|ids| - 1] || x == id;
      if id in t.items && t.items[id].parent == folder then rest + [Entry(id, t.items[id])] else rest
  }

  /** The children of `folder`, in creation order. */
  function Children(t: Tree, folder: Id): seq<Entry>
  {
    ChildrenIn(t, folder, t.order)
  }

  function Logged(d: Drive, c: Call): Drive
  {
    d.(calls := d.calls + [c])
  }

  /** `files().list(q="'folder' in parents", pageSize, pageToken)`: one page of
      the folder's children, starting at the offset the token names. */
  function ListPageOp(env: Env, d: Drive, folder: Id, token: Option<nat>, pageSize: nat): (Drive, Option<Page>)
  {
    var d' := Logged(d, ListCall(folder));
    if folder in env.faulty || !Known(d.tree, folder) then (d', None)
    else
      var kids := Children(d.tree, folder);
      var start := Min(token.GetOr(0), |kids|);
      var end := Min(start + pageSize, |kids|);
      (d', Some(Page(kids[start..end], if end < |kids| then Some(end) else None)))
  }

  /** A listing request only logs itself, and a page that names a next token
      moves forward through the folder's children. */
  lemma ListPageFacts(env: Env, d: Drive, folder: Id, token: Option<nat>, pageSize: nat)
    requires pageSize > 0
    ensures ListPageOp(env, d, folder, token, pageSize).0 == Logged(d, ListCall(folder))
    ensures var r := ListPageOp(env, d, folder, token, pageSize).1;
      r.Some? && r.value.next.Some? ==>
        token.GetOr(0) < r.value.next.value < |Children(d.tree, folder)|
  {
  }

  predicate Matches(e: Entry, name: string, folderOnly: bool)
  {
    e.item.name == name && (folderOnly ==> e.item.IsFolder())
  }

  /** The first entry with the given name (and folder type, if asked). */
  function FirstNamed(es: seq<Entry>, name: string, folderOnly: bool): (r: Option<Entry>)
    ensures r.Some? ==> r.value in es && Matches(r.value, name, folderOnly)
    ensures r.None? ==> forall e :: e in es ==> !Matches(e, name, folderOnly)
    ensures r.Some? ==> exists k :: 0 <= k < |es| && es[k] == r.value &&
                                    forall j :: 0 <= j < k ==> !Matches(es[j], name, folderOnly)
  {
    if es == [] then None
    else if Matches(es[0], name, folderOnly) then Some(es[0])
    else FirstNamed(es[1..], name, folderOnly)
  }

  /** `files().list(q="name = 'name' and 'parent' in parents [and mimeType = folder]")`,
      keeping the first match; an API error yields no match. */
  function FindOp(env: Env, d: Drive, name: string, parent: Id, folderOnly: bool): (Drive, Option<Entry>)
  {
    var d' := Logged(d, FindCall(name, parent));
    if parent in env.faulty || !Known(d.tree, parent) then (d', None)
    else (d', FirstNamed(Children(d.tree, parent), name, folderOnly))
  }

  function AddItem(t: Tree, item: Item): (Tree, Id)
  {
    var id := IdFor(|t.order|);
    (Tree(t.items[id := item], t.order + [id]), id)
  }

  /** `files().create` of a folder; it fails unless the parent is a folder. */
  function CreateFolderOp(env: Env, d: Drive, name: string, parent: Id): (Drive, Option<Id>)
  {
    var d' := Logged(d, CreateFolderCall(name, parent));
    if parent in env.faulty || !IsFolderId(d.tree, parent) then (d', None)
    else
      var (t, id) := AddItem(d.tree, Item(name, parent, FOLDER_MIME, Some(env.now), None));
      (d'.(tree := t), Some(id))
  }

  /** `files().create` of a file with media. */
  function CreateFileOp(env: Env, d: Drive, name: string, parent: Id, blob: Blob): (Drive, Option<Id>)
  {
    var d' := Logged(d, CreateFileCall(name, parent));
    if parent in env.faulty || !IsFolderId(d.tree, parent) then (d', None)
    else
      var (t, id) := AddItem(d.tree, Item(name, parent, BINARY_MIME, Some(env.now), Some(blob)));
      (d'.(tree := t), Some(id))
  }

  /** `files().update` with media, optionally renaming; only items with binary
      content can take new media. */
  function UpdateFileOp(env: Env, d: Drive, id: Id, newName: Option<string>, blob: Blob): (Drive, Option<Id>)
  {
    var d' := Logged(d, UpdateFileCall(id));
    if id in env.faulty || id !in d.tree.items || d.tree.items[id].content.None? then (d', None)
    else
      var it := d.tree.items[id];
      var it' := it.(name := newName.GetOr(it.name), modifiedTime := Some(env.now), content := Some(blob));
      (d'.(tree := d.tree.(items := d.tree.items[id := it'])), Some(id))
  }

  /** `files().get_media`: the item's content; Workspace documents and folders
      have no binary content and cannot be downloaded. */
  function DownloadOp(env: Env, d: Drive, id: Id): (Drive, Option<Blob>)
  {
    var d' := Logged(d, DownloadCall(id));
    if id in env.faulty || id !in d.tree.items || d.tree.items[id].content.None? then (d', None)
    else (d', d.tree.items[id].content)
  }

  lemma RootNotIssued(t: Tree)
    requires TreeValid(t)
    ensures ROOT !in t.order
  {
    forall i | 0 <= i < |t.order| ensures t.order[i] != ROOT {
      assert t.order[i][1] == 'd';
    }
  }

  lemma AddItemValid(t: Tree, item: Item)
    requires TreeValid(t)
    requires item.parent == ROOT || item.parent in t.items
    ensures TreeValid(AddItem(t, item).0)
  {
    var (t', id) := AddItem(t, item);
    if id in t.order {
      var i :| 0 <= i < |t.order| && t.order[i] == id;
      IdForInjective(i, |t.order|);
    }
    forall i | 0 <= i < |t'.order| ensures ParentBefore(t', i) {
      if i < |t.order| {
        assert ParentBefore(t, i);
        assert t.order[..i] == t'.order[..i];
      } else {
        assert t'.order[..i] == t.order;
      }
    }
  }

  lemma CreateFolderValid(env: Env, d: Drive, name: string, parent: Id)
    requires TreeValid(d.tree)
    ensures TreeValid(CreateFolderOp(env, d, name, parent).0.tree)
  {
    if parent !in env.faulty && IsFolderId(d.tree, parent) {
      AddItemValid(d.tree, Item(name, parent, FOLDER_MIME, Some(env.now), None));
    }
  }

  lemma CreateFileValid(env: Env, d: Drive, name: string, parent: Id, blob: Blob)
    requires TreeValid(d.tree)
    ensures TreeValid(CreateFileOp(env, d, name, parent, blob).0.tree)
  {
    if parent !in env.faulty && IsFolderId(d.tree, parent) {
      AddItemValid(d.tree, Item(name, parent, BINARY_MIME, Some(env.now), Some(blob)));
    }
  }

  lemma UpdateFileValid(env: Env, d: Drive, id: Id, newName: Option<string>, blob: Blob)
    requires TreeValid(d.tree)
    ensures TreeValid(UpdateFileOp(env, d, id, newName, blob).0.tree)
  {
    var t' := UpdateFileOp(env, d, id, newName, blob).0.tree;
    forall i | 0 <= i < |t'.order| ensures ParentBefore(t', i) {
      assert ParentBefore(d.tree, i);
    }
  }

  /** Position of an item in creation order, counted from 1; 0 for ROOT. */
  function Rank(t: Tree, id: Id): nat
  {
    if id in t.order then IndexOf(t.order, id) + 1 else 0
  }

  function IndexOf(s: seq<Id>, x: Id): (k: nat)
    requires x in s
    ensures k < |s| && s[k] == x
    ensures forall j :: 0 <= j < k ==> s[j] != x
  {
    if s[0] == x then 0 else 1 + IndexOf(s[1..], x)
  }

  /** A child comes after its parent in creation order: the measure on which
      the download walker's recursion terminates. */
  lemma RankOfChild(t: Tree, c: Id, f: Id)
    requires TreeValid(t)
    requires c in t.items && t.items[c].parent == f
    ensures Rank(t, f) < Rank(t, c) <= |t.order|
  {
    var i := IndexOf(t.order, c);
    assert ParentBefore(t, i);
    if f == ROOT {
      RootNotIssued(t);
    } else {
      var j :| 0 <= j < i && t.order[..i][j] == f;
      assert t.order[j] == f;
    }
  }

  /** What a folder's children look like through a name-keyed map built from
      a listing. */
  function Lookup(m: map<string, Entry>, name: string): Option<Entry>
  {
    if name in m then Some(m[name]) else None
  }

  /** `for item in entries: m[item['name']] = item`. */
  function AddAll(m: map<string, Entry>, es: seq<Entry>): map<string, Entry>
    decreases |es|
  {
    if es == [] then m else AddAll(m[es[0].item.name := es[0]], es[1..])
  }

  /** `{item['name']: item for item in entries}`. */
  function NameMap(es: seq<Entry>): map<string, Entry>
  {
    AddAll(map[], es)
  }

  /** The last entry with the given name: the one a later-wins map keeps. */
  function LastNamed(es: seq<Entry>, name: string): (r: Option<Entry>)
    ensures r.Some? ==> r.value in es && r.value.item.name == name
    ensures r.None? ==> forall e :: e in es ==> e.item.name != name
  {
    if es == [] then None
    else if es[|es| - 1].item.name == name then Some(es[|es| - 1])
    else
      assert forall e :: e in es ==> e in es[..|es| - 1] || e == es[|es| - 1];
      LastNamed(es[..|es| - 1], name)
  }

  lemma {:induction false} AddAllAppend(m: map<string, Entry>, a: seq<Entry>, b: seq<Entry>)
    ensures AddAll(m, a + b) == AddAll(AddAll(m, a), b)
    decreases |a|
  {
    if a == [] {
      assert a + b == b;
    } else {
      assert (a + b)[1..] == a[1..] + b;
      AddAllAppend(m[a[0].item.name := a[0]], a[1..], b);
    }
  }

  /** Adding entries one after another keeps, for each name, the last entry
      that carries it; names no entry carries keep their old value. */
  lemma {:induction false} AddAllLookup(m: map<string, Entry>, es: seq<Entry>, name: string)
    ensures Lookup(AddAll(m, es), name) ==
      (if LastNamed(es, name).Some? then LastNamed(es, name) else Lookup(m, name))
    decreases |es|
  {
    if es != [] {
      var init, x := es[..|es| - 1], es[|es| - 1];
      assert es == init + [x];
      AddAllAppend(m, init, [x]);
      var mi := AddAll(m, init);
      assert AddAll(mi, [x]) == AddAll(mi[x.item.name := x], []);
      if x.item.name != name {
        AddAllLookup(m, init, name);
      }
    }
  }

  /** A listing turned into a name map holds exactly the listed names, each
      mapped to the last listed item of that name. */
  lemma NameMapLookup(es: seq<Entry>, name: string)
    ensures Lookup(NameMap(es), name) == LastNamed(es, name)
  {
    AddAllLookup(map[], es, name);
  }

  /** The store's state and request log as an object the walkers call into. */
  class Store {
    var tree: Tree
    var calls: seq<Call>
    const env: Env

    ghost predicate Valid()
      reads this
    {
      TreeValid(tree)
    }

    function Value(): Drive
      reads this
    {
      Drive(tree, calls)
    }

    constructor (t: Tree, env: Env)
      requires TreeValid(t)
      ensures Valid() && tree == t && calls == [] && this.env == env
    {
      tree := t;
      calls := [];
      this.env := env;
    }

    method ListPage(folder: Id, token: Option<nat>, pageSize: nat) returns (r: Option<Page>)
      requires Valid()
      modifies this
      ensures Valid()
      ensures (Value(), r) == ListPageOp(env, old(Value()), folder, token, pageSize)
    {
      var res := ListPageOp(env, Value(), folder, token, pageSize);
      calls := res.0.calls;
      r := res.1;
    }

    method Find(name: string, parent: Id, folderOnly: bool) returns (r: Option<Entry>)
      requires Valid()
      modifies this
      ensures Valid()
      ensures (Value(), r) == FindOp(env, old(Value()), name, parent, folderOnly)
    {
      var res := FindOp(env, Value(), name, parent, folderOnly);
      calls := res.0.calls;
      r := res.1;
    }

    method CreateFolder(name: string, parent: Id) returns (r: Option<Id>)
      requires Valid()
      modifies this
      ensures Valid()
      ensures (Value(), r) == CreateFolderOp(env, old(Value()), name, parent)
    {
      CreateFolderValid(env, Value(), name, parent);
      var res := CreateFolderOp(env, Value(), name, parent);
      tree, calls := res.0.tree, res.0.calls;
      r := res.1;
    }

    method CreateFile(name: string, parent: Id, blob: Blob) returns (r: Option<Id>)
      requires Valid()
      modifies this
      ensures Valid()
      ensures (Value(), r) == CreateFileOp(env, old(Value()), name, parent, blob)
    {
      CreateFileValid(env, Value(), name, parent, blob);
      var res := CreateFileOp(env, Value(), name, parent, blob);
      tree, calls := res.0.tree, res.0.calls;
      r := res.1;
    }

    method UpdateFile(id: Id, newName: Option<string>, blob: Blob) returns (r: Option<Id>)
      requires Valid()
      modifies this
      ensures Valid()
      ensures (Value(), r) == UpdateFileOp(env, old(Value()), id, newName, blob)
    {
      UpdateFileValid(env, Value(), id, newName, blob);
      var res := UpdateFileOp(env, Value(), id, newName, blob);
      tree, calls := res.0.tree, res.0.calls;
      r := res.1;
    }

    method Download(id: Id) returns (r: Option<Blob>)
      requires Valid()
      modifies this
      ensures Valid()
      ensures (Value(), r) == DownloadOp(env, old(Value()), id)
    {
      var res := DownloadOp(env, Value(), id);
      calls := res.0.calls;
      r := res.1;
    }
  }
}
