/**
 * The in-memory file and folder registry of the upload API
 * (backend/api/file.py): `uploaded_files` maps a file id to its entry and
 * `folder_structure` maps a folder name to the ids filed under it. Both are
 * Python dictionaries, so each keeps its keys in insertion order; the model
 * carries that order beside the map. Text extraction, chunking and the hash
 * that names a file are inputs.
 */
module FileRegistry {
  import opened Common

  const DefaultFolder: string := "default"

  datatype FileEntry = FileEntry(filename: string, content: string, chunks: seq<string>,
                                 contentType: string, folder: string)

  /** Both dictionaries, each with its keys in insertion order. */
  datatype Store = Store(files: map<string, FileEntry>, fileOrder: seq<string>,
                         folders: map<string, seq<string>>, folderOrder: seq<string>)

  /** A dictionary's key order lists every key exactly once. */
  ghost predicate KeyOrder<V>(m: map<string, V>, order: seq<string>)
  {
    NoDuplicates(order) && forall k :: k in m <==> k in order
  }

  ghost predicate Wf(st: Store)
  {
    KeyOrder(st.files, st.fileOrder) && KeyOrder(st.folders, st.folderOrder) && DefaultFolder in st.folders
  }

  /**
   * The registry as the upload API means it: every folder list is free of
   * repeats, each listed id is a live file filed under that folder, and
   * every live file is listed in the folder its entry names.
   */
  ghost predicate Consistent(st: Store)
  {
    Wf(st) && ListsDistinct(st) && ListedAreFiled(st) && FilesAreListed(st)
  }

  ghost predicate ListsDistinct(st: Store)
  {
    forall f :: f in st.folders ==> NoDuplicates(st.folders[f])
  }

  ghost predicate ListedAreFiled(st: Store)
  {
    forall f, id :: f in st.folders && id in st.folders[f] ==> id in st.files && st.files[id].folder == f
  }

  ghost predicate FilesAreListed(st: Store)
  {
    forall id :: id in st.files ==> st.files[id].folder in st.folders && id in st.folders[st.files[id].folder]
  }

  /** The registry at start-up: no files and the empty "default" folder. */
  function Initial(): (st: Store)
    ensures Consistent(st)
  {
    Store(map[], [], map[DefaultFolder := []], [DefaultFolder])
  }

  /** `d[k] = v`: a new key goes to the end of the order, an existing key keeps its place. */
  function Placed(order: seq<string>, k: string): (r: seq<string>)
    ensures k in r
    ensures forall x :: x in r <==> x in order || x == k
  {
    if k in order then order else order + [k]
  }

  lemma PlacedKeyOrder<V>(m: map<string, V>, order: seq<string>, k: string, v: V)
    requires KeyOrder(m, order)
    ensures KeyOrder(m[k := v], Placed(order, k))
  {
  }

  lemma RemovedKeyOrder<V>(m: map<string, V>, order: seq<string>, k: string)
    requires KeyOrder(m, order)
    ensures KeyOrder(m - {k}, RemoveAll(order, k))
  {
    RemoveAllKeepsNoDuplicates(order, k);
  }

  datatype Failure = Failure(status: int, detail: string)

  datatype Reply<T> = Done(value: T) | Refused(failure: Failure)

  /** The new state of the registry and what the endpoint answers. */
  datatype Step<T> = Step(store: Store, reply: Reply<T>)

  const NotFoundDetail: string := "File not found. It may have expired."

  /**
   * upload_file catches its own HTTPException(400) and re-raises it as a 500
   * whose detail embeds the exception's text, "400: {detail}".
   */
  const ProcessingPrefix: string := "Error processing file: 400: "

  const EmptyUpload: string := "Empty file uploaded"
  const FolderNameEmpty: string := "Folder name cannot be empty"
  const NewNameEmpty: string := "New folder name cannot be empty"
  const DeleteDefault: string := "Cannot delete the default folder"
  const RenameDefault: string := "Cannot rename the default folder"

  function FolderExists(name: string): string
  {
    "Folder '" + name + "' already exists"
  }

  function FolderNotFound(name: string): string
  {
    "Folder '" + name + "' not found"
  }

  function FileDeleted(filename: string): string
  {
    "File '" + filename + "' deleted successfully"
  }

  datatype UploadInfo = UploadInfo(id: string, filename: string, size: nat, chunks: nat,
                                   contentType: string, folder: string)

  /** The folder an upload names, created empty when it is new (and kept even when the upload then fails). */
  function WithFolder(st: Store, folder: string): (r: Store)
    ensures folder in r.folders
    ensures r.files == st.files && r.fileOrder == st.fileOrder
    ensures folder in st.folders ==> r == st
  {
    if folder in st.folders then st
    else st.(folders := st.folders[folder := []], folderOrder := st.folderOrder + [folder])
  }

  /** The extractor's error texts begin with "Error" or "Unsupported". */
  predicate IsExtractionError(text: string)
  {
    "Error" <= text || "Unsupported" <= text
  }

  /**
   * upload_file as written: `rawSize` is the length of the uploaded bytes,
   * `extracted` the extractor's text, `chunks` the retriever's chunks and
   * `fileId` the id built from the two hashes. The entry is stored under the
   * id and the id is appended to the folder's list.
   */
  function UploadSpec(st: Store, filename: string, contentType: string, folder: string, rawSize: nat,
                      extracted: string, chunks: seq<string>, fileId: string): Step<UploadInfo>
  {
    var created := WithFolder(st, folder);
    if rawSize == 0 then Step(created, Refused(Failure(500, ProcessingPrefix + EmptyUpload)))
    else if IsExtractionError(extracted) then Step(created, Refused(Failure(500, ProcessingPrefix + extracted)))
    else
      Step(created.(files := created.files[fileId := FileEntry(filename, extracted, chunks, contentType, folder)],
                    fileOrder := Placed(created.fileOrder, fileId),
                    folders := created.folders[folder := created.folders[folder] + [fileId]]),
           Done(UploadInfo(fileId, filename, |extracted|, |chunks|, contentType, folder)))
  }

  /**
   * The upload contract: the folder exists afterwards whatever happens; an
   * empty or unreadable upload changes nothing else and is a 500; otherwise
   * the entry is stored, the id is appended to exactly that folder's list,
   * and the registry stays well formed.
   */
  lemma UploadEffect(st: Store, filename: string, contentType: string, folder: string, rawSize: nat,
                     extracted: string, chunks: seq<string>, fileId: string)
    requires Wf(st)
    ensures var s := UploadSpec(st, filename, contentType, folder, rawSize, extracted, chunks, fileId);
      && Wf(s.store)
      && folder in s.store.folders
      && (folder !in st.folders ==> s.store.folderOrder == st.folderOrder + [folder])
      && (s.reply.Refused? <==> rawSize == 0 || IsExtractionError(extracted))
      && (s.reply.Refused? ==>
            s.reply.failure.status == 500 && s.store.files == st.files
            && s.store.folders == WithFolder(st, folder).folders)
      && (s.reply.Done? ==>
            && s.store.files == st.files[fileId := FileEntry(filename, extracted, chunks, contentType, folder)]
            && s.store.folders[folder] == (if folder in st.folders then st.folders[folder] else []) + [fileId]
            && (forall f :: f in st.folders && f != folder ==> s.store.folders[f] == st.folders[f])
            && s.reply.value.id == fileId && s.reply.value.size == |extracted| && s.reply.value.chunks == |chunks|)
  {
    var created := WithFolder(st, folder);
    assert Wf(created) by {
      if folder !in st.folders {
        PlacedKeyOrder(st.folders, st.folderOrder, folder, []);
      }
    }
    PlacedKeyOrder(created.files, created.fileOrder, fileId, FileEntry(filename, extracted, chunks, contentType, folder));
  }

  /** The folder lists with `fileId` taken out of the list of the folder its entry names. */
  function Unlist(c: Store, fileId: string): map<string, seq<string>>
  {
    if fileId in c.files && c.files[fileId].folder in c.folders
    then c.folders[c.files[fileId].folder := RemoveAll(c.folders[c.files[fileId].folder], fileId)]
    else c.folders
  }

  /** The entry stored under `fileId` and the id listed once, at the end of its folder's list. */
  function Refiled(c: Store, fileId: string, entry: FileEntry): Store
    requires entry.folder in c.folders
  {
    var u := Unlist(c, fileId);
    c.(files := c.files[fileId := entry],
       fileOrder := Placed(c.fileOrder, fileId),
       folders := u[entry.folder := RemoveAll(u[entry.folder], fileId) + [fileId]])
  }

  /**
   * upload_file as intended: a file uploaded again (same id) is listed once,
   * under the folder of its latest upload; its id leaves the list of the
   * folder it was in before.
   */
  function UploadCorrectedSpec(st: Store, filename: string, contentType: string, folder: string, rawSize: nat,
                               extracted: string, chunks: seq<string>, fileId: string): Step<UploadInfo>
  {
    var created := WithFolder(st, folder);
    if rawSize == 0 then Step(created, Refused(Failure(500, ProcessingPrefix + EmptyUpload)))
    else if IsExtractionError(extracted) then Step(created, Refused(Failure(500, ProcessingPrefix + extracted)))
    else
      Step(Refiled(created, fileId, FileEntry(filename, extracted, chunks, contentType, folder)),
           Done(UploadInfo(fileId, filename, |extracted|, |chunks|, contentType, folder)))
  }

  lemma AppendKeepsNoDuplicates(s: seq<string>, x: string)
    requires NoDuplicates(s) && x !in s
    ensures NoDuplicates(s + [x])
  {
  }

  lemma WithFolderConsistent(st: Store, folder: string)
    requires Consistent(st)
    ensures Consistent(WithFolder(st, folder))
  {
    if folder !in st.folders {
      PlacedKeyOrder(st.folders, st.folderOrder, folder, []);
    }
  }

  /** The corrected upload keeps the registry consistent: the file is listed once, in its own folder. */
  lemma UploadCorrectedKeepsConsistent(st: Store, filename: string, contentType: string, folder: string, rawSize: nat,
                                       extracted: string, chunks: seq<string>, fileId: string)
    requires Consistent(st)
    ensures var s := UploadCorrectedSpec(st, filename, contentType, folder, rawSize, extracted, chunks, fileId);
      Consistent(s.store)
      && (s.reply.Done? ==> s.store.files[fileId].folder == folder && Count(s.store.folders[folder], fileId) == 1)
  {
    WithFolderConsistent(st, folder);
    if rawSize > 0 && !IsExtractionError(extracted) {
      RefiledConsistent(WithFolder(st, folder), fileId, FileEntry(filename, extracted, chunks, contentType, folder));
    }
  }

  lemma RefiledConsistent(c: Store, fileId: string, entry: FileEntry)
    requires Consistent(c) && entry.folder in c.folders
    ensures var r := Refiled(c, fileId, entry);
      Consistent(r) && r.files[fileId] == entry && Count(r.folders[entry.folder], fileId) == 1
  {
    var u := Unlist(c, fileId);
    Unlisted(c, fileId);
    assert RemoveAll(u[entry.folder], fileId) == u[entry.folder];
    PlacedKeyOrder(c.files, c.fileOrder, fileId, entry);
    AppendKeepsNoDuplicates(u[entry.folder], fileId);
    RefiledListed(c, u, fileId, entry);
    RefiledFiled(c, u, fileId, entry);
    CountOne(u[entry.folder], fileId);
  }

  /** After unlisting, every listed id of the re-filed registry is a live file filed under its folder. */
  lemma RefiledListed(c: Store, u: map<string, seq<string>>, fileId: string, entry: FileEntry)
    requires ListedAreFiled(c) && entry.folder in u && u.Keys == c.folders.Keys
    requires forall f :: f in u ==> fileId !in u[f]
    requires forall f, id :: f in u && id != fileId ==> (id in u[f] <==> id in c.folders[f])
    ensures ListedAreFiled(Store(c.files[fileId := entry], [], u[entry.folder := u[entry.folder] + [fileId]], []))
  {
    var r := Store(c.files[fileId := entry], [], u[entry.folder := u[entry.folder] + [fileId]], []);
    forall f, id | f in r.folders && id in r.folders[f] ensures id in r.files && r.files[id].folder == f {
      if id != fileId {
        assert id in u[f];
        assert id in c.folders[f];
      }
    }
  }

  /** After unlisting, every live file of the re-filed registry is listed in its own folder. */
  lemma RefiledFiled(c: Store, u: map<string, seq<string>>, fileId: string, entry: FileEntry)
    requires FilesAreListed(c) && entry.folder in u && u.Keys == c.folders.Keys
    requires forall f, id :: f in u && id != fileId ==> (id in u[f] <==> id in c.folders[f])
    ensures FilesAreListed(Store(c.files[fileId := entry], [], u[entry.folder := u[entry.folder] + [fileId]], []))
  {
    var r := Store(c.files[fileId := entry], [], u[entry.folder := u[entry.folder] + [fileId]], []);
    forall id | id in r.files ensures r.files[id].folder in r.folders && id in r.folders[r.files[id].folder] {
      if id != fileId {
        var g := c.files[id].folder;
        assert id in c.folders[g];
        assert id in u[g];
      }
    }
  }

  /** Taking the id out of its folder's list leaves it in no list and every other id where it was. */
  lemma Unlisted(c: Store, fileId: string)
    requires Consistent(c)
    ensures var u := Unlist(c, fileId);
      && u.Keys == c.folders.Keys
      && (forall f :: f in u ==> fileId !in u[f] && NoDuplicates(u[f]))
      && (forall f, id :: f in u && id != fileId ==> (id in u[f] <==> id in c.folders[f]))
  {
    var u := Unlist(c, fileId);
    forall f | f in u ensures fileId !in u[f] && NoDuplicates(u[f]) {
      RemoveAllKeepsNoDuplicates(c.folders[f], fileId);
    }
  }

  lemma CountOne(s: seq<string>, x: string)
    requires x !in s
    ensures Count(s + [x], x) == 1
  {
    if s != [] {
      assert (s + [x])[1..] == s[1..] + [x];
      CountOne(s[1..], x);
    } else {
      assert [x][1..] == [];
    }
  }

  /**
   * The upload as written breaks that: uploading a file that is already
   * listed in the same folder lists its id there twice.
   */
  lemma UploadAgainListsTwice(st: Store, filename: string, contentType: string, folder: string, rawSize: nat,
                              extracted: string, chunks: seq<string>, fileId: string)
    requires Consistent(st) && fileId in st.files && st.files[fileId].folder == folder
    requires rawSize > 0 && !IsExtractionError(extracted)
    ensures var s := UploadSpec(st, filename, contentType, folder, rawSize, extracted, chunks, fileId);
      Count(s.store.folders[folder], fileId) == 2 && !Consistent(s.store)
  {
    var s := UploadSpec(st, filename, contentType, folder, rawSize, extracted, chunks, fileId);
    var before := st.folders[folder];
    assert Count(before, fileId) == 1 by {
      var i :| 0 <= i < |before| && before[i] == fileId;
      CountUnique(before, fileId, i);
    }
    CountAppend(before, [fileId], fileId);
    assert [fileId][1..] == [];
    var after := s.store.folders[folder];
    var i :| 0 <= i < |before| && before[i] == fileId;
    assert after[i] == after[|before|];
  }

  lemma {:induction false} CountAppend(a: seq<string>, b: seq<string>, x: string)
    ensures Count(a + b, x) == Count(a, x) + Count(b, x)
  {
    if a == [] {
      assert a + b == b;
    } else {
      assert (a + b)[1..] == a[1..] + b;
      CountAppend(a[1..], b, x);
    }
  }

  lemma {:induction false} CountUnique(s: seq<string>, x: string, i: nat)
    requires NoDuplicates(s) && i < |s| && s[i] == x
    ensures Count(s, x) == 1
  {
    if i == 0 {
      assert x !in s[1..];
    } else {
      assert NoDuplicates(s[1..]);
      CountUnique(s[1..], x, i - 1);
    }
  }

  /** get_file_info's preview: the first three chunks joined by newlines, cut at 500 characters plus "...". */
  function Preview(chunks: seq<string>): (p: string)
    ensures var joined := Join(Take(chunks, 3), "\n");
      (|joined| <= 500 ==> p == joined)
      && (|joined| > 500 ==> |p| == 503 && p[..500] == joined[..500] && p[500..] == "...")
    ensures |p| <= 503
  {
    var joined := Join(Take(chunks, 3), "\n");
    if |joined| > 500 then joined[..500] + "..." else joined
  }

  datatype FileDetails = FileDetails(id: string, filename: string, size: nat, chunks: nat,
                                     contentType: string, preview: string)

  /** get_file_info: a 404 for an unknown id, otherwise the entry's details and preview. */
  function FileInfo(st: Store, fileId: string): (r: Reply<FileDetails>)
    ensures r.Refused? <==> fileId !in st.files
    ensures r.Refused? ==> r.failure == Failure(404, NotFoundDetail)
    ensures r.Done? ==>
      r.value.id == fileId && r.value.size == |st.files[fileId].content|
      && r.value.chunks == |st.files[fileId].chunks| && r.value.preview == Preview(st.files[fileId].chunks)
  {
    if fileId !in st.files then Refused(Failure(404, NotFoundDetail))
    else
      var e := st.files[fileId];
      Done(FileDetails(fileId, e.filename, |e.content|, |e.chunks|, e.contentType, Preview(e.chunks)))
  }

  datatype Listing = Listing(id: string, filename: string, size: nat, chunks: nat, contentType: string, folder: string)

  function ListingOf(id: string, e: FileEntry): Listing
  {
    Listing(id, e.filename, |e.content|, |e.chunks|, e.contentType, e.folder)
  }

  /** The listings of the ids that are still live files, in list order; stale ids are skipped. */
  function LiveListings(ids: seq<string>, files: map<string, FileEntry>): seq<Listing>
  {
    if ids == [] then []
    else
      var last := ids[|ids| - 1];
      LiveListings(ids[..|ids| - 1], files) + (if last in files then [ListingOf(last, files[last])] else [])
  }

  /** Number of entries of `ids` that are live files. */
  function CountLive(ids: seq<string>, files: map<string, FileEntry>): nat
  {
    if ids == [] then 0
    else CountLive(ids[..|ids| - 1], files) + (if ids[|ids| - 1] in files then 1 else 0)
  }

  /**
   * The listing of a list of ids holds a live file's entry for each of its
   * occurrences and nothing for a stale id; its length is the live count.
   */
  lemma {:induction false} LiveListingsContents(ids: seq<string>, files: map<string, FileEntry>)
    ensures |LiveListings(ids, files)| == CountLive(ids, files) <= |ids|
    ensures forall l :: l in LiveListings(ids, files) ==> l.id in ids && l.id in files && l == ListingOf(l.id, files[l.id])
    ensures forall id :: id in ids && id in files ==> ListingOf(id, files[id]) in LiveListings(ids, files)
  {
    if ids != [] {
      var init := ids[..|ids| - 1];
      LiveListingsContents(init, files);
      assert ids == init + [ids[|ids| - 1]];
    }
  }

  /** list_files: a non-empty folder name lists that folder's live files ([] for an unknown folder); otherwise every file. */
  function ListFilesSpec(st: Store, folder: Option<string>): seq<Listing>
  {
    if folder.Some? && folder.value != "" then
      if folder.value in st.folders then LiveListings(st.folders[folder.value], st.files) else []
    else LiveListings(st.fileOrder, st.files)
  }

  /** Listing every file gives each live file once, in upload order. */
  lemma ListAllFiles(st: Store)
    requires Wf(st)
    ensures |ListFilesSpec(st, None)| == |st.fileOrder|
    ensures forall id :: id in st.files ==> ListingOf(id, st.files[id]) in ListFilesSpec(st, None)
  {
    LiveListingsContents(st.fileOrder, st.files);
    AllLive(st.fileOrder, st.files);
  }

  lemma {:induction false} AllLive(ids: seq<string>, files: map<string, FileEntry>)
    requires forall id :: id in ids ==> id in files
    ensures CountLive(ids, files) == |ids|
  {
    if ids != [] {
      AllLive(ids[..|ids| - 1], files);
    }
  }

  datatype FolderSummary = FolderSummary(name: string, filesCount: nat, isDefault: bool)

  function SummaryOf(st: Store, name: string): FolderSummary
    requires name in st.folders
  {
    FolderSummary(name, CountLive(st.folders[name], st.files), name == DefaultFolder)
  }

  /** list_folders: one summary per folder in creation order, counting only live ids. */
  function ListFoldersSpec(st: Store): seq<FolderSummary>
    requires Wf(st)
  {
    seq(|st.folderOrder|, i requires 0 <= i < |st.folderOrder| => SummaryOf(st, st.folderOrder[i]))
  }

  /** A folder's count in list_folders is the number of entries list_files gives for it. */
  lemma FolderCountMatchesListing(st: Store, i: nat)
    requires Wf(st) && i < |st.folderOrder|
    ensures ListFoldersSpec(st)[i].name == st.folderOrder[i]
    ensures st.folderOrder[i] != "" ==>
      ListFoldersSpec(st)[i].filesCount == |ListFilesSpec(st, Some(st.folderOrder[i]))|
    ensures ListFoldersSpec(st)[i].isDefault <==> st.folderOrder[i] == DefaultFolder
  {
    LiveListingsContents(st.folders[st.folderOrder[i]], st.files);
  }

  /** delete_file: a 404 for an unknown id; otherwise the id leaves its folder's list (first occurrence) and the files. */
  function DeleteFileSpec(st: Store, fileId: string): Step<string>
  {
    if fileId !in st.files then Step(st, Refused(Failure(404, NotFoundDetail)))
    else
      var e := st.files[fileId];
      var folders := if e.folder in st.folders && fileId in st.folders[e.folder]
                     then st.folders[e.folder := RemoveFirst(st.folders[e.folder], fileId)]
                     else st.folders;
      Step(st.(files := st.files - {fileId}, fileOrder := RemoveAll(st.fileOrder, fileId), folders := folders),
           Done(FileDeleted(e.filename)))
  }

  lemma {:induction false} RemoveFirstMembers(s: seq<string>, x: string)
    requires x in s && NoDuplicates(s)
    ensures x !in RemoveFirst(s, x) && NoDuplicates(RemoveFirst(s, x))
    ensures forall y :: y in RemoveFirst(s, x) <==> y in s && y != x
  {
    if s[0] != x {
      assert NoDuplicates(s[1..]);
      RemoveFirstMembers(s[1..], x);
      assert s[0] !in s[1..];
      assert RemoveFirst(s, x) == [s[0]] + RemoveFirst(s[1..], x);
    } else {
      assert NoDuplicates(s[1..]);
    }
  }

  /** delete_file takes away exactly that file and keeps the registry consistent. */
  lemma DeleteFileEffect(st: Store, fileId: string)
    requires Consistent(st)
    ensures var s := DeleteFileSpec(st, fileId);
      && Consistent(s.store)
      && (s.reply.Refused? <==> fileId !in st.files)
      && (s.reply.Refused? ==> s.store == st)
      && (s.reply.Done? ==>
            s.store.files == st.files - {fileId} && s.store.folders.Keys == st.folders.Keys
            && s.store.folderOrder == st.folderOrder
            && forall f :: f in st.folders ==> fileId !in s.store.folders[f])
  {
    if fileId in st.files {
      DeletedConsistent(st, fileId);
    }
  }

  /** With the file gone from its folder list and from the files, the registry stays consistent. */
  lemma DeletedConsistent(st: Store, fileId: string)
    requires Consistent(st) && fileId in st.files
    ensures var s := DeleteFileSpec(st, fileId).store;
      Consistent(s) && forall f :: f in st.folders ==> fileId !in s.folders[f]
  {
    var e := st.files[fileId];
    RemoveFirstMembers(st.folders[e.folder], fileId);
    RemovedKeyOrder(st.files, st.fileOrder, fileId);
    DeletedListedAreFiled(st, fileId);
  }

  /** Every id still listed is a live file filed under its folder. */
  lemma DeletedListedAreFiled(st: Store, fileId: string)
    requires fileId in st.files && ListedAreFiled(st)
    requires var f := st.files[fileId].folder;
      f in st.folders && fileId in st.folders[f] && NoDuplicates(st.folders[f])
    ensures ListedAreFiled(DeleteFileSpec(st, fileId).store)
  {
    var e := st.files[fileId];
    var s := DeleteFileSpec(st, fileId).store;
    RemoveFirstMembers(st.folders[e.folder], fileId);
    assert s.folders == st.folders[e.folder := RemoveFirst(st.folders[e.folder], fileId)];
    forall f, id | f in s.folders && id in s.folders[f]
      ensures id in s.files && s.files[id].folder == f
    {
      if f == e.folder {
        assert id in st.folders[f] && id != fileId;
      } else {
        assert id in st.folders[f];
      }
    }
  }

  /** create_folder: the stripped name, refused when empty or taken; otherwise a new empty folder, and nothing else. */
  function CreateFolderSpec(st: Store, requested: string): Step<string>
  {
    var name := Strip(requested);
    if name == "" then Step(st, Refused(Failure(400, FolderNameEmpty)))
    else if name in st.folders then Step(st, Refused(Failure(400, FolderExists(name))))
    else Step(st.(folders := st.folders[name := []], folderOrder := st.folderOrder + [name]), Done(name))
  }

  lemma CreateFolderEffect(st: Store, requested: string)
    requires Consistent(st)
    ensures var s := CreateFolderSpec(st, requested);
      && Consistent(s.store)
      && (s.reply.Refused? <==> Strip(requested) == "" || Strip(requested) in st.folders)
      && (s.reply.Refused? ==> s.store == st && s.reply.failure.status == 400)
      && (s.reply.Done? ==>
            s.reply.value == Strip(requested)
            && s.store == st.(folders := st.folders[Strip(requested) := []], folderOrder := st.folderOrder + [Strip(requested)]))
  {
    var name := Strip(requested);
    if name != "" && name !in st.folders {
      WithFolderConsistent(st, name);
      assert CreateFolderSpec(st, requested).store == WithFolder(st, name);
    }
  }

  /** The state carried through delete_folder's loop. */
  datatype Sweep = Sweep(files: map<string, FileEntry>, fileOrder: seq<string>, defaultIds: seq<string>,
                         deleted: nat, moved: nat)

  /** One iteration: a live id is deleted, or moved to "default"; a stale id is skipped. */
  function SweepStep(acc: Sweep, id: string, deleteFiles: bool): Sweep
  {
    if id !in acc.files then acc
    else if deleteFiles then
      acc.(files := acc.files - {id}, fileOrder := RemoveAll(acc.fileOrder, id), deleted := acc.deleted + 1)
    else
      acc.(files := acc.files[id := acc.files[id].(folder := DefaultFolder)],
           defaultIds := acc.defaultIds + [id], moved := acc.moved + 1)
  }

  /** The loop over (a copy of) the folder's ids. */
  function SweepAll(acc: Sweep, ids: seq<string>, deleteFiles: bool): Sweep
  {
    if ids == [] then acc else SweepStep(SweepAll(acc, ids[..|ids| - 1], deleteFiles), ids[|ids| - 1], deleteFiles)
  }

  /** Live entries of `ids`, in order: the ids moved to "default". */
  function LiveIds(ids: seq<string>, files: map<string, FileEntry>): seq<string>
  {
    if ids == [] then []
    else LiveIds(ids[..|ids| - 1], files) + (if ids[|ids| - 1] in files then [ids[|ids| - 1]] else [])
  }

  /**
   * Moving: no file is deleted, each live id is appended to "default" in
   * list order and retagged, other entries are untouched, and the moved
   * count is the number of live entries.
   */
  lemma {:induction false} SweepMove(acc: Sweep, ids: seq<string>)
    ensures var r := SweepAll(acc, ids, false);
      && r.files.Keys == acc.files.Keys && r.fileOrder == acc.fileOrder && r.deleted == acc.deleted
      && r.defaultIds == acc.defaultIds + LiveIds(ids, acc.files)
      && r.moved == acc.moved + CountLive(ids, acc.files)
      && (forall id :: id in acc.files && id in ids ==> r.files[id] == acc.files[id].(folder := DefaultFolder))
      && (forall id :: id in acc.files && id !in ids ==> r.files[id] == acc.files[id])
  {
    if ids != [] {
      var init := ids[..|ids| - 1];
      SweepMove(acc, init);
      assert ids == init + [ids[|ids| - 1]];
      var mid := SweepAll(acc, init, false);
      assert ids[|ids| - 1] in mid.files <==> ids[|ids| - 1] in acc.files;
    }
  }

  /**
   * Deleting: the ids of the folder leave the files, nothing is moved, and
   * when the list has no repeats the deleted count is its number of live entries.
   */
  lemma {:induction false} SweepDelete(acc: Sweep, ids: seq<string>)
    requires KeyOrder(acc.files, acc.fileOrder)
    ensures var r := SweepAll(acc, ids, true);
      && KeyOrder(r.files, r.fileOrder)
      && (forall id :: id in r.files <==> id in acc.files && id !in ids)
      && (forall id :: id in r.files ==> r.files[id] == acc.files[id])
      && r.defaultIds == acc.defaultIds && r.moved == acc.moved
      && (NoDuplicates(ids) ==> r.deleted == acc.deleted + CountLive(ids, acc.files))
  {
    if ids != [] {
      var init := ids[..|ids| - 1];
      var last := ids[|ids| - 1];
      SweepDelete(acc, init);
      var mid := SweepAll(acc, init, true);
      RemovedKeyOrder(mid.files, mid.fileOrder, last);
      assert ids == init + [last];
      if NoDuplicates(ids) {
        assert NoDuplicates(init);
        assert last !in init;
      }
    }
  }

  datatype FolderCounts = FolderCounts(deleted: nat, moved: nat)

  /**
   * delete_folder: a 404 for an unknown folder, a 400 for "default";
   * otherwise sweep its ids (deleting or moving the live ones) and remove the folder.
   */
  function DeleteFolderSpec(st: Store, name: string, deleteFiles: bool): Step<FolderCounts>
    requires DefaultFolder in st.folders
  {
    if name !in st.folders then Step(st, Refused(Failure(404, FolderNotFound(name))))
    else if name == DefaultFolder then Step(st, Refused(Failure(400, DeleteDefault)))
    else
      var r := SweepAll(Sweep(st.files, st.fileOrder, st.folders[DefaultFolder], 0, 0), st.folders[name], deleteFiles);
      Step(Store(r.files, r.fileOrder, st.folders[DefaultFolder := r.defaultIds] - {name}, RemoveAll(st.folderOrder, name)),
           Done(FolderCounts(r.deleted, r.moved)))
  }

  /**
   * The counts delete_folder reports: with deletion, the folder's live ids
   * are gone and nothing is moved; without, they are all moved to "default"
   * and nothing is deleted. Either way the two counts add up to the
   * folder's live entries (its list being free of repeats), and the folder is gone.
   */
  lemma DeleteFolderEffect(st: Store, name: string, deleteFiles: bool)
    requires Wf(st) && name in st.folders && name != DefaultFolder && NoDuplicates(st.folders[name])
    ensures var s := DeleteFolderSpec(st, name, deleteFiles);
      var live := CountLive(st.folders[name], st.files);
      && s.reply.Done? && Wf(s.store)
      && s.reply.value.deleted + s.reply.value.moved == live
      && name !in s.store.folders
      && (forall f :: f in s.store.folders <==> f in st.folders && f != name)
      && (deleteFiles ==>
            && s.reply.value.moved == 0
            && (forall id :: id in s.store.files <==> id in st.files && id !in st.folders[name])
            && s.store.folders[DefaultFolder] == st.folders[DefaultFolder])
      && (!deleteFiles ==>
            && s.reply.value.deleted == 0 && s.store.files.Keys == st.files.Keys
            && s.store.folders[DefaultFolder] == st.folders[DefaultFolder] + LiveIds(st.folders[name], st.files)
            && (forall id :: id in st.files && id in st.folders[name] ==> s.store.files[id].folder == DefaultFolder))
  {
    var acc := Sweep(st.files, st.fileOrder, st.folders[DefaultFolder], 0, 0);
    RemovedKeyOrder(st.folders[DefaultFolder := SweepAll(acc, st.folders[name], deleteFiles).defaultIds],
                    st.folderOrder, name);
    if deleteFiles {
      SweepDelete(acc, st.folders[name]);
    } else {
      SweepMove(acc, st.folders[name]);
    }
  }

  /**
   * rename_folder's loop: the live ids of the list are retagged with the new
   * folder name, the other entries are left alone, and no file appears or disappears.
   */
  function Retag(ids: seq<string>, files: map<string, FileEntry>, name: string): (r: map<string, FileEntry>)
    ensures r.Keys == files.Keys
    ensures forall id :: id in files && id in ids ==> r[id] == files[id].(folder := name)
    ensures forall id :: id in files && id !in ids ==> r[id] == files[id]
  {
    if ids == [] then files
    else
      var init := ids[..|ids| - 1];
      var last := ids[|ids| - 1];
      var before := Retag(init, files, name);
      assert ids == init + [last];
      if last in before then before[last := before[last].(folder := name)] else before
  }

  /** The folder `oldName` filed under `newName`: the list moves to the new key, its live files are retagged. */
  function Renamed(st: Store, oldName: string, newName: string): Store
    requires oldName in st.folders
  {
    var ids := st.folders[oldName];
    st.(files := Retag(ids, st.files, newName),
        folders := st.folders[newName := ids] - {oldName},
        folderOrder := RemoveAll(st.folderOrder + [newName], oldName))
  }

  /**
   * rename_folder: both names stripped; refused for an empty new name (400),
   * an unknown old name (404), "default" (400) and a taken new name (400,
   * so also when the names are equal); otherwise the folder is renamed, the
   * new key going to the end of the folder order. The reply is the list's
   * length, stale ids included.
   */
  function RenameFolderSpec(st: Store, oldRequested: string, newRequested: string): Step<nat>
  {
    var oldName := Strip(oldRequested);
    var newName := Strip(newRequested);
    if newName == "" then Step(st, Refused(Failure(400, NewNameEmpty)))
    else if oldName !in st.folders then Step(st, Refused(Failure(404, FolderNotFound(oldName))))
    else if oldName == DefaultFolder then Step(st, Refused(Failure(400, RenameDefault)))
    else if newName in st.folders then Step(st, Refused(Failure(400, FolderExists(newName))))
    else Step(Renamed(st, oldName, newName), Done(|st.folders[oldName]|))
  }

  /** Renaming keeps the registry consistent. */
  lemma RenamedConsistent(st: Store, oldName: string, newName: string)
    requires Consistent(st) && oldName in st.folders && oldName != DefaultFolder && newName !in st.folders
    ensures Consistent(Renamed(st, oldName, newName))
  {
    RenamedWf(st, oldName, newName);
    RenamedDistinct(st, oldName, newName);
    RenamedListed(st, oldName, newName);
    RenamedFiled(st, oldName, newName);
  }

  lemma RenamedDistinct(st: Store, oldName: string, newName: string)
    requires ListsDistinct(st) && oldName in st.folders && newName !in st.folders
    ensures ListsDistinct(Renamed(st, oldName, newName))
  {
    var r := Renamed(st, oldName, newName);
    forall f | f in r.folders ensures NoDuplicates(r.folders[f]) {
      if f != newName {
        assert r.folders[f] == st.folders[f];
      }
    }
  }

  lemma RenamedListed(st: Store, oldName: string, newName: string)
    requires ListedAreFiled(st) && oldName in st.folders && newName !in st.folders
    ensures ListedAreFiled(Renamed(st, oldName, newName))
  {
    var r := Renamed(st, oldName, newName);
    forall f, id | f in r.folders && id in r.folders[f] ensures id in r.files && r.files[id].folder == f {
      ListedMove(st, oldName, newName, f, id);
    }
  }

  lemma RenamedFiled(st: Store, oldName: string, newName: string)
    requires FilesAreListed(st) && oldName in st.folders && newName !in st.folders
    ensures FilesAreListed(Renamed(st, oldName, newName))
  {
    var r := Renamed(st, oldName, newName);
    forall id | id in r.files ensures r.files[id].folder in r.folders && id in r.folders[r.files[id].folder] {
      FiledMove(st, oldName, newName, id);
    }
  }

  /** The renamed folder holds the old list under the new name, and its live files name it. */
  lemma RenamedShape(st: Store, oldName: string, newName: string)
    requires oldName in st.folders && newName !in st.folders
    ensures var r := Renamed(st, oldName, newName);
      && r.folders[newName] == st.folders[oldName]
      && (forall f :: f in r.folders <==> (f in st.folders && f != oldName) || f == newName)
      && r.files.Keys == st.files.Keys
      && (forall id :: id in st.files && id in st.folders[oldName] ==> r.files[id].folder == newName)
  {
    var ids := st.folders[oldName];
    var files := Retag(ids, st.files, newName);
    var folders := st.folders[newName := ids] - {oldName};
    assert Renamed(st, oldName, newName).files == files;
    assert Renamed(st, oldName, newName).folders == folders;
  }

  lemma RenamedWf(st: Store, oldName: string, newName: string)
    requires Wf(st) && oldName in st.folders && oldName != DefaultFolder && newName !in st.folders
    ensures Wf(Renamed(st, oldName, newName))
    ensures Renamed(st, oldName, newName).folderOrder == RemoveAll(st.folderOrder, oldName) + [newName]
  {
    var ids := st.folders[oldName];
    PlacedKeyOrder(st.folders, st.folderOrder, newName, ids);
    RemovedKeyOrder(st.folders[newName := ids], st.folderOrder + [newName], oldName);
    RemoveAllAppend(st.folderOrder, newName, oldName);
  }

  lemma ListedMove(st: Store, oldName: string, newName: string, f: string, id: string)
    requires ListedAreFiled(st) && oldName in st.folders && newName !in st.folders
    requires f in Renamed(st, oldName, newName).folders && id in Renamed(st, oldName, newName).folders[f]
    ensures id in Renamed(st, oldName, newName).files && Renamed(st, oldName, newName).files[id].folder == f
  {
    var ids := st.folders[oldName];
    if f == newName {
      assert id in ids;
      assert id in st.files;
    } else {
      assert f != oldName && id in st.folders[f];
      assert st.files[id].folder == f;
      assert id !in ids;
    }
  }

  lemma FiledMove(st: Store, oldName: string, newName: string, id: string)
    requires FilesAreListed(st) && oldName in st.folders && newName !in st.folders
    requires id in Renamed(st, oldName, newName).files
    ensures var r := Renamed(st, oldName, newName);
      r.files[id].folder in r.folders && id in r.folders[r.files[id].folder]
  {
    var ids := st.folders[oldName];
    var r := Renamed(st, oldName, newName);
    if id !in ids {
      var g := st.files[id].folder;
      assert g != oldName;
      assert r.folders[g] == st.folders[g];
    }
  }

  lemma RenameFolderEffect(st: Store, oldRequested: string, newRequested: string)
    requires Consistent(st)
    ensures var s := RenameFolderSpec(st, oldRequested, newRequested);
      var oldName := Strip(oldRequested);
      var newName := Strip(newRequested);
      && Consistent(s.store)
      && (s.reply.Refused? <==>
            newName == "" || oldName !in st.folders || oldName == DefaultFolder || newName in st.folders)
      && (s.reply.Refused? ==> s.store == st)
      && (s.reply.Done? ==> s.reply.value == |st.folders[oldName]| && s.store == Renamed(st, oldName, newName))
  {
    var oldName := Strip(oldRequested);
    var newName := Strip(newRequested);
    if newName != "" && oldName in st.folders && oldName != DefaultFolder && newName !in st.folders {
      RenamedConsistent(st, oldName, newName);
    }
  }

  lemma {:induction false} RemoveAllAppend(s: seq<string>, y: string, x: string)
    requires x != y
    ensures RemoveAll(s + [y], x) == RemoveAll(s, x) + [y]
  {
    if s == [] {
      assert [y][1..] == [];
    } else {
      assert (s + [y])[1..] == s[1..] + [y];
      RemoveAllAppend(s[1..], y, x);
    }
  }

  /** The two module-level dictionaries, updated in place by the endpoints. */
  class Registry {
    var files: map<string, FileEntry>
    var fileOrder: seq<string>
    var folders: map<string, seq<string>>
    var folderOrder: seq<string>

    function State(): Store
      reads this
    {
      Store(files, fileOrder, folders, folderOrder)
    }

    constructor ()
      ensures State() == Initial()
    {
      files := map[];
      fileOrder := [];
      folders := map[DefaultFolder := []];
      folderOrder := [DefaultFolder];
    }

    /** Python assignment `folder_structure[k] = v`. */
    method PutFolder(k: string, v: seq<string>)
      modifies this`folders, this`folderOrder
      ensures folders == old(folders)[k := v] && folderOrder == Placed(old(folderOrder), k)
    {
      folders := folders[k := v];
      if k !in folderOrder {
        folderOrder := folderOrder + [k];
      }
    }

    method Upload(filename: string, contentType: string, folder: string, rawSize: nat,
                  extracted: string, chunks: seq<string>, fileId: string) returns (r: Reply<UploadInfo>)
      requires Wf(State())
      modifies this
      ensures Step(State(), r) == UploadSpec(old(State()), filename, contentType, folder, rawSize, extracted, chunks, fileId)
    {
      if folder !in folders {
        PutFolder(folder, []);
      }
      if rawSize == 0 {
        return Refused(Failure(500, ProcessingPrefix + EmptyUpload));
      }
      if IsExtractionError(extracted) {
        return Refused(Failure(500, ProcessingPrefix + extracted));
      }
      files := files[fileId := FileEntry(filename, extracted, chunks, contentType, folder)];
      if fileId !in fileOrder {
        fileOrder := fileOrder + [fileId];
      }
      folders := folders[folder := folders[folder] + [fileId]];
      r := Done(UploadInfo(fileId, filename, |extracted|, |chunks|, contentType, folder));
    }

    method UploadCorrected(filename: string, contentType: string, folder: string, rawSize: nat,
                           extracted: string, chunks: seq<string>, fileId: string) returns (r: Reply<UploadInfo>)
      requires Wf(State())
      modifies this
      ensures Step(State(), r) == UploadCorrectedSpec(old(State()), filename, contentType, folder, rawSize, extracted, chunks, fileId)
    {
      if folder !in folders {
        PutFolder(folder, []);
      }
      if rawSize == 0 {
        return Refused(Failure(500, ProcessingPrefix + EmptyUpload));
      }
      if IsExtractionError(extracted) {
        return Refused(Failure(500, ProcessingPrefix + extracted));
      }
      if fileId in files && files[fileId].folder in folders {
        var previous := files[fileId].folder;
        folders := folders[previous := RemoveAll(folders[previous], fileId)];
      }
      files := files[fileId := FileEntry(filename, extracted, chunks, contentType, folder)];
      if fileId !in fileOrder {
        fileOrder := fileOrder + [fileId];
      }
      folders := folders[folder := RemoveAll(folders[folder], fileId) + [fileId]];
      r := Done(UploadInfo(fileId, filename, |extracted|, |chunks|, contentType, folder));
    }

    /** list_files: the loop over the folder's ids (or over all files). */
    method ListFiles(folder: Option<string>) returns (listed: seq<Listing>, count: nat)
      ensures listed == ListFilesSpec(State(), folder) && count == |listed|
    {
      var ids: seq<string>;
      if folder.Some? && folder.value != "" {
        if folder.value !in folders {
          return [], 0;
        }
        ids := folders[folder.value];
      } else {
        ids := fileOrder;
      }
      listed := [];
      var i := 0;
      while i < |ids|
        invariant 0 <= i <= |ids|
        invariant listed == LiveListings(ids[..i], files)
      {
        assert ids[..i + 1][..i] == ids[..i];
        if ids[i] in files {
          listed := listed + [ListingOf(ids[i], files[ids[i]])];
        }
        i := i + 1;
      }
      assert ids[..i] == ids;
      count := |listed|;
    }

    /** list_folders: the loop over the folders, counting each one's live ids. */
    method ListFolders() returns (summaries: seq<FolderSummary>, count: nat)
      requires Wf(State())
      ensures summaries == ListFoldersSpec(State()) && count == |summaries|
    {
      summaries := [];
      var i := 0;
      while i < |folderOrder|
        invariant 0 <= i <= |folderOrder|
        invariant |summaries| == i
        invariant forall j :: 0 <= j < i ==> summaries[j] == SummaryOf(State(), folderOrder[j])
      {
        var name := folderOrder[i];
        var ids := folders[name];
        var live := 0;
        var k := 0;
        while k < |ids|
          invariant 0 <= k <= |ids|
          invariant live == CountLive(ids[..k], files)
        {
          assert ids[..k + 1][..k] == ids[..k];
          if ids[k] in files {
            live := live + 1;
          }
          k := k + 1;
        }
        assert ids[..k] == ids;
        summaries := summaries + [FolderSummary(name, live, name == DefaultFolder)];
        i := i + 1;
      }
      count := |summaries|;
    }

    method DeleteFile(fileId: string) returns (r: Reply<string>)
      modifies this
      ensures Step(State(), r) == DeleteFileSpec(old(State()), fileId)
    {
      if fileId !in files {
        return Refused(Failure(404, NotFoundDetail));
      }
      var e := files[fileId];
      if e.folder in folders && fileId in folders[e.folder] {
        folders := folders[e.folder := RemoveFirst(folders[e.folder], fileId)];
      }
      files := files - {fileId};
      fileOrder := RemoveAll(fileOrder, fileId);
      r := Done(FileDeleted(e.filename));
    }

    method CreateFolder(requested: string) returns (r: Reply<string>)
      requires Wf(State())
      modifies this
      ensures Step(State(), r) == CreateFolderSpec(old(State()), requested)
    {
      var name := Strip(requested);
      if name == "" {
        return Refused(Failure(400, FolderNameEmpty));
      }
      if name in folders {
        return Refused(Failure(400, FolderExists(name)));
      }
      PutFolder(name, []);
      r := Done(name);
    }

    method DeleteFolder(name: string, deleteFiles: bool) returns (r: Reply<FolderCounts>)
      requires Wf(State())
      modifies this
      ensures Step(State(), r) == DeleteFolderSpec(old(State()), name, deleteFiles)
    {
      if name !in folders {
        return Refused(Failure(404, FolderNotFound(name)));
      }
      if name == DefaultFolder {
        return Refused(Failure(400, DeleteDefault));
      }
      var ids := folders[name];
      var deleted, moved := SweepFolder(ids, deleteFiles);
      folders := folders - {name};
      folderOrder := RemoveAll(folderOrder, name);
      r := Done(FolderCounts(deleted, moved));
    }

    /** The loop of delete_folder over (a copy of) the folder's ids, counting what it deletes and moves. */
    method SweepFolder(ids: seq<string>, deleteFiles: bool) returns (deleted: nat, moved: nat)
      requires DefaultFolder in folders
      modifies this`files, this`fileOrder, this`folders
      ensures DefaultFolder in folders
      ensures folders == old(folders)[DefaultFolder := folders[DefaultFolder]]
      ensures Sweep(files, fileOrder, folders[DefaultFolder], deleted, moved)
           == SweepAll(Sweep(old(files), old(fileOrder), old(folders)[DefaultFolder], 0, 0), ids, deleteFiles)
    {
      ghost var acc0 := Sweep(files, fileOrder, folders[DefaultFolder], 0, 0);
      deleted, moved := 0, 0;
      var i := 0;
      while i < |ids|
        invariant 0 <= i <= |ids|
        invariant DefaultFolder in folders
        invariant folders == old(folders)[DefaultFolder := folders[DefaultFolder]]
        invariant Sweep(files, fileOrder, folders[DefaultFolder], deleted, moved) == SweepAll(acc0, ids[..i], deleteFiles)
      {
        var id := ids[i];
        assert ids[..i + 1][..i] == ids[..i];
        if id in files {
          if deleteFiles {
            files := files - {id};
            fileOrder := RemoveAll(fileOrder, id);
            deleted := deleted + 1;
          } else {
            files := files[id := files[id].(folder := DefaultFolder)];
            folders := folders[DefaultFolder := folders[DefaultFolder] + [id]];
            moved := moved + 1;
          }
        }
        i := i + 1;
      }
      assert ids[..i] == ids;
    }

    method RenameFolder(oldRequested: string, newRequested: string) returns (r: Reply<nat>)
      requires Wf(State())
      modifies this
      ensures Step(State(), r) == RenameFolderSpec(old(State()), oldRequested, newRequested)
    {
      var oldName := Strip(oldRequested);
      var newName := Strip(newRequested);
      if newName == "" {
        return Refused(Failure(400, NewNameEmpty));
      }
      if oldName !in folders {
        return Refused(Failure(404, FolderNotFound(oldName)));
      }
      if oldName == DefaultFolder {
        return Refused(Failure(400, RenameDefault));
      }
      if newName in folders {
        return Refused(Failure(400, FolderExists(newName)));
      }
      var count := |folders[oldName]|;
      MoveFolder(oldName, newName);
      r := Done(count);
    }

    /** The renaming itself: the new key, the retagging loop, and the old key's removal. */
    method MoveFolder(oldName: string, newName: string)
      requires Wf(State()) && oldName in folders && newName !in folders
      modifies this
      ensures State() == Renamed(old(State()), oldName, newName)
    {
      var ids := folders[oldName];
      PutFolder(newName, ids);
      RetagFiles(ids, newName);
      assert folderOrder == old(folderOrder) + [newName];
      folders := folders - {oldName};
      folderOrder := RemoveAll(folderOrder, oldName);
    }

    /** The loop of rename_folder pointing each file of `ids` at the folder `name`. */
    method RetagFiles(ids: seq<string>, name: string)
      modifies this`files
      ensures files == Retag(ids, old(files), name)
    {
      var i := 0;
      while i < |ids|
        invariant 0 <= i <= |ids|
        invariant files == Retag(ids[..i], old(files), name)
      {
        assert ids[..i + 1][..i] == ids[..i];
        if ids[i] in files {
          files := files[ids[i] := files[ids[i]].(folder := name)];
        }
        i := i + 1;
      }
      assert ids[..i] == ids;
    }
  }
}
