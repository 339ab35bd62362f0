/** The part of Google Drive the monthly rollover touches: the client folders under one parent
    folder, the documents in them, and getOrCreateClientFolder (Code.js:119-122). Ids are
    handed out by Drive; URLs are derived from ids by functions the caller supplies. */
module DriveFiles {
  import opened Cells

  /** Document content: the logo image at a width in points, or a paragraph of text. */
  datatype Block = Logo(width: nat) | Paragraph(text: string)

  datatype DocFile = DocFile(id: nat, name: string, trashed: bool, body: seq<Block>)

  datatype Folder = Folder(id: nat, name: string, files: seq<DocFile>)

  /** The client folders under the parent folder, in the order Drive lists them, and the next
      id Drive hands out. */
  datatype DriveState = DriveState(folders: seq<Folder>, nextId: nat)

  /** The first folder from index `start` on whose name is exactly `name`. */
  function FindFolderFrom(folders: seq<Folder>, name: string, start: nat): (r: Option<nat>)
    requires start <= |folders|
    ensures r.Some? ==> start <= r.value < |folders| && folders[r.value].name == name
    ensures r.Some? ==> forall j | start <= j < r.value :: folders[j].name != name
    ensures r.None? ==> forall j | start <= j < |folders| :: folders[j].name != name
    decreases |folders| - start
  {
    if start == |folders| then None
    else if folders[start].name == name then Some(start)
    else FindFolderFrom(folders, name, start + 1)
  }

  /** The search from `start` stops at the first match. */
  lemma {:induction false} FindFolderIs(folders: seq<Folder>, name: string, start: nat, i: nat)
    requires start <= i < |folders| && folders[i].name == name
    requires forall j | start <= j < i :: folders[j].name != name
    ensures FindFolderFrom(folders, name, start) == Some(i)
    decreases i - start
  {
    if start < i {
      FindFolderIs(folders, name, start + 1, i);
    }
  }

  /** getFoldersByName(name).next(): the first folder named exactly `name` (case matters). */
  function FindFolder(folders: seq<Folder>, name: string): (r: Option<nat>)
  {
    FindFolderFrom(folders, name, 0)
  }

  /** The folder index getOrCreateClientFolder returns, and the drive it leaves. */
  function GetOrCreate(ds: DriveState, name: string): (r: (DriveState, nat))
    ensures r.1 < |r.0.folders| && r.0.folders[r.1].name == name
  {
    match FindFolder(ds.folders, name)
    case Some(i) => (ds, i)
    case None => (DriveState(ds.folders + [Folder(ds.nextId, name, [])], ds.nextId + 1), |ds.folders|)
  }

  /** getOrCreateClientFolder returns a folder with exactly that name: the first existing one,
      leaving Drive as it was, or a new empty one added at the end when there is none. */
  lemma GetOrCreateFolder(ds: DriveState, name: string)
    ensures var (ds', i) := GetOrCreate(ds, name);
            i < |ds'.folders| && ds'.folders[i].name == name &&
            (forall j | 0 <= j < i :: ds'.folders[j].name != name) &&
            (FindFolder(ds.folders, name).Some? ==> ds' == ds) &&
            (FindFolder(ds.folders, name).None? ==>
               ds'.folders == ds.folders + [Folder(ds.nextId, name, [])] && ds'.nextId == ds.nextId + 1)
  {
  }

  /** Asking again for the same name finds the folder the first call returned and creates
      nothing. */
  lemma GetOrCreateIdempotent(ds: DriveState, name: string)
    ensures var (ds', i) := GetOrCreate(ds, name);
            GetOrCreate(ds', name) == (ds', i)
  {
    GetOrCreateFolder(ds, name);
    var (ds', i) := GetOrCreate(ds, name);
    FindFolderIs(ds'.folders, name, 0, i);
  }

  /** The number of files named `name` that are not in the trash. */
  function LiveCount(files: seq<DocFile>, name: string): nat
  {
    if files == [] then 0
    else
      var n := |files|;
      LiveCount(files[..n - 1], name) + if files[n - 1].name == name && !files[n - 1].trashed then 1 else 0
  }

  lemma LiveCountAppend(files: seq<DocFile>, f: DocFile, name: string)
    ensures LiveCount(files + [f], name) == LiveCount(files, name) + if f.name == name && !f.trashed then 1 else 0
  {
    assert (files + [f])[..|files|] == files;
  }

  /** No file in the list is a live file named `name`. */
  lemma {:induction false} LiveCountZero(files: seq<DocFile>, name: string)
    requires forall j | 0 <= j < |files| :: files[j].name != name || files[j].trashed
    ensures LiveCount(files, name) == 0
  {
    if files != [] {
      LiveCountZero(files[..|files| - 1], name);
    }
  }

  /** Files that agree on name and trash state for `name` count the same. */
  lemma {:induction false} LiveCountSame(a: seq<DocFile>, b: seq<DocFile>, name: string)
    requires |a| == |b|
    requires forall j | 0 <= j < |a| :: (a[j].name == name && !a[j].trashed) == (b[j].name == name && !b[j].trashed)
    ensures LiveCount(a, name) == LiveCount(b, name)
  {
    if a != [] {
      var n := |a|;
      LiveCountSame(a[..n - 1], b[..n - 1], name);
    }
  }

  /** The files after every file named `name` was sent to the trash. */
  function TrashNamed(files: seq<DocFile>, name: string): (r: seq<DocFile>)
    ensures |r| == |files|
    ensures forall j | 0 <= j < |files| ::
              r[j] == if files[j].name == name then files[j].(trashed := true) else files[j]
  {
    seq(|files|, j requires 0 <= j < |files| =>
      if files[j].name == name then files[j].(trashed := true) else files[j])
  }

  /** The first file named `name` that is not in the trash. */
  function FirstLiveFrom(files: seq<DocFile>, name: string, start: nat): (r: Option<nat>)
    requires start <= |files|
    ensures r.Some? ==> start <= r.value < |files| && files[r.value].name == name && !files[r.value].trashed
    ensures r.Some? ==> forall j | start <= j < r.value :: files[j].name != name || files[j].trashed
    ensures r.None? ==> forall j | start <= j < |files| :: files[j].name != name || files[j].trashed
    decreases |files| - start
  {
    if start == |files| then None
    else if files[start].name == name && !files[start].trashed then Some(start)
    else FirstLiveFrom(files, name, start + 1)
  }

  function FirstLive(files: seq<DocFile>, name: string): Option<nat>
  {
    FirstLiveFrom(files, name, 0)
  }

  /** The search from `start` stops at the first live file with the name. */
  lemma {:induction false} FirstLiveIs(files: seq<DocFile>, name: string, start: nat, i: nat)
    requires start <= i < |files| && files[i].name == name && !files[i].trashed
    requires forall j | start <= j < i :: files[j].name != name || files[j].trashed
    ensures FirstLiveFrom(files, name, start) == Some(i)
    decreases i - start
  {
    if start < i {
      FirstLiveIs(files, name, start + 1, i);
    }
  }

  /** A live file named `name` exists exactly when some are counted. */
  lemma {:induction false} FirstLiveCount(files: seq<DocFile>, name: string)
    ensures FirstLive(files, name).None? <==> LiveCount(files, name) == 0
  {
    var r := FirstLive(files, name);
    if r.None? {
      LiveCountZero(files, name);
    } else {
      LiveCountPositive(files, name, r.value);
    }
  }

  lemma {:induction false} LiveCountPositive(files: seq<DocFile>, name: string, k: nat)
    requires k < |files| && files[k].name == name && !files[k].trashed
    ensures LiveCount(files, name) >= 1
  {
    var n := |files|;
    if k < n - 1 {
      LiveCountPositive(files[..n - 1], name, k);
    }
  }

  /** A new document as `createFile(docName, "")` leaves it: live, with an empty body. */
  function NewDoc(id: nat, name: string): DocFile
  {
    DocFile(id, name, false, [])
  }

  /** A folder's files after a document was written, the id of that document, and the next
      id Drive will hand out. */
  datatype Placed = Placed(files: seq<DocFile>, id: nat, nextId: nat)

  /** The replace pass on one folder's files: trash every file named `name`, then create a new
      one holding `body`. */
  function ReplaceDoc(files: seq<DocFile>, nextId: nat, name: string, body: seq<Block>): Placed
  {
    Placed(TrashNamed(files, name) + [NewDoc(nextId, name).(body := body)], nextId, nextId + 1)
  }

  /** The reuse pass on one folder's files: rewrite the body of the first live file named
      `name`, or create one when there is none. */
  function ReuseDoc(files: seq<DocFile>, nextId: nat, name: string, body: seq<Block>): Placed
  {
    match FirstLive(files, name)
    case Some(k) => Placed(files[k := files[k].(body := body)], files[k].id, nextId)
    case None => Placed(files + [NewDoc(nextId, name).(body := body)], nextId, nextId + 1)
  }

  /** After the replace pass exactly one live file carries the name, the one just created, and
      files with other names are as they were. */
  lemma ReplaceLeavesOneLive(files: seq<DocFile>, nextId: nat, name: string, body: seq<Block>)
    ensures var p := ReplaceDoc(files, nextId, name, body);
            var files' := p.files;
            LiveCount(files', name) == 1 && |files'| == |files| + 1 &&
            files'[|files|] == DocFile(p.id, name, false, body) &&
            forall other | other != name :: LiveCount(files', other) == LiveCount(files, other)
  {
    var t := TrashNamed(files, name);
    var d := NewDoc(nextId, name).(body := body);
    LiveCountAppend(t, d, name);
    LiveCountZero(t, name);
    forall other | other != name
      ensures LiveCount(t + [d], other) == LiveCount(files, other)
    {
      LiveCountAppend(t, d, other);
      LiveCountSame(t, files, other);
    }
  }

  /** The reuse pass creates a file only when no live one has the name, and keeps the live
      count of that name at one when it was at most one. Other names are not affected. */
  lemma ReuseKeepsOneLive(files: seq<DocFile>, nextId: nat, name: string, body: seq<Block>)
    requires LiveCount(files, name) <= 1
    ensures var p := ReuseDoc(files, nextId, name, body);
            var files' := p.files;
            LiveCount(files', name) == 1 &&
            (LiveCount(files, name) == 1 ==> |files'| == |files| && p.nextId == nextId) &&
            forall other | other != name :: LiveCount(files', other) == LiveCount(files, other)
  {
    FirstLiveCount(files, name);
    match FirstLive(files, name)
    case Some(k) =>
      var files' := files[k := files[k].(body := body)];
      LiveCountSame(files', files, name);
      forall other | other != name
        ensures LiveCount(files', other) == LiveCount(files, other)
      {
        LiveCountSame(files', files, other);
      }
    case None =>
      var d := NewDoc(nextId, name).(body := body);
      LiveCountAppend(files, d, name);
      forall other | other != name
        ensures LiveCount(files + [d], other) == LiveCount(files, other)
      {
        LiveCountAppend(files, d, other);
      }
  }

  /** The client folders, the documents in them and the id counter, as one object that the
      rollover updates in place. */
  class DriveService {
    var folders: seq<Folder>
    var nextId: nat

    constructor (folders: seq<Folder>, nextId: nat)
      ensures this.folders == folders && this.nextId == nextId
    {
      this.folders := folders;
      this.nextId := nextId;
    }

    function State(): DriveState
      reads this
    {
      DriveState(folders, nextId)
    }

    /** getOrCreateClientFolder(parentFolder, clientName) */
    method GetOrCreateClientFolder(clientName: string) returns (index: nat)
      modifies this
      ensures (State(), index) == GetOrCreate(old(State()), clientName)
    {
      var found := FindFolder(folders, clientName);
      if found.Some? {
        return found.value;
      }
      folders := folders + [Folder(nextId, clientName, [])];
      nextId := nextId + 1;
      index := |folders| - 1;
    }

    /** `while (existingFiles.hasNext()) existingFiles.next().setTrashed(true)`: every file of
        the folder named `name` goes to the trash. */
    method TrashFilesNamed(fi: nat, name: string)
      requires fi < |folders|
      modifies this`folders
      ensures folders == old(folders)[fi := old(folders)[fi].(files := TrashNamed(old(folders)[fi].files, name))]
    {
      var files := folders[fi].files;
      var done: seq<DocFile> := [];
      var k := 0;
      while k < |files|
        invariant 0 <= k <= |files|
        invariant done == TrashNamed(files[..k], name)
      {
        var f := files[k];
        if f.name == name {
          f := f.(trashed := true);
        }
        done := done + [f];
        k := k + 1;
      }
      assert files[..k] == files;
      folders := folders[fi := folders[fi].(files := done)];
    }

    /** The `existingFiles` loop of the reuse pass: the first file named `name` not in the trash. */
    method FindLiveFile(fi: nat, name: string) returns (r: Option<nat>)
      requires fi < |folders|
      ensures r == FirstLive(folders[fi].files, name)
    {
      var files := folders[fi].files;
      var k := 0;
      while k < |files|
        invariant 0 <= k <= |files|
        invariant FirstLive(files, name) == FirstLiveFrom(files, name, k)
      {
        if files[k].name == name && !files[k].trashed {
          return Some(k);
        }
        k := k + 1;
      }
      return None;
    }

    /** createFile(docName, ""): a new live document with an empty body, at the end of the folder. */
    method CreateFile(fi: nat, name: string) returns (k: nat)
      requires fi < |folders|
      modifies this
      ensures folders == old(folders)[fi := old(folders)[fi].(files := old(folders)[fi].files + [NewDoc(old(nextId), name)])]
      ensures nextId == old(nextId) + 1
      ensures k == |old(folders)[fi].files|
    {
      k := |folders[fi].files|;
      folders := folders[fi := folders[fi].(files := folders[fi].files + [NewDoc(nextId, name)])];
      nextId := nextId + 1;
    }

    /** The document body after `body.clear()` (or on a new, empty document) and the appends
        that follow. */
    method SetBody(fi: nat, k: nat, body: seq<Block>)
      requires fi < |folders| && k < |folders[fi].files|
      modifies this`folders
      ensures folders == old(folders)[fi := old(folders)[fi].(files := old(folders)[fi].files[k := old(folders)[fi].files[k].(body := body)])]
    {
      var files := folders[fi].files;
      folders := folders[fi := folders[fi].(files := files[k := files[k].(body := body)])];
    }
  }
}
