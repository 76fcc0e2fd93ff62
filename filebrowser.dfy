/** The file browser (components/FileBrowser.tsx): the filter over the
    chat's files, the selection list and the bulk download it issues. */
module FileBrowser {
  import opened Common
  import opened Types
  import opened Api

  // ---------------------------------------------------------------------
  // Filtering
  // ---------------------------------------------------------------------

  const BytesPerMegabyte: nat := 1048576

  /** `file.size / 1024 / 1024 >= minSize`, over whole bytes. */
  predicate SizeMatches(size: nat, minSize: int) {
    size >= minSize * BytesPerMegabyte
  }

  /** The integer test agrees with the division the component performs
      (dividing by powers of two loses nothing). */
  lemma SizeMatchesDivision(size: nat, minSize: int)
    ensures SizeMatches(size, minSize) <==> (size as real) / 1024.0 / 1024.0 >= minSize as real
  {
    var x := size as real;
    assert x / 1024.0 / 1024.0 == x / 1048576.0;
    assert (minSize * BytesPerMegabyte) as real == (minSize as real) * 1048576.0;
    DivideAtLeast(x, minSize as real, 1048576.0);
  }

  lemma DivideAtLeast(x: real, m: real, d: real)
    requires d > 0.0
    ensures x / d >= m <==> x >= m * d
  {
    assert (x / d) * d == x;
    if x / d >= m {
      assert (x / d) * d >= m * d;
    }
    if x >= m * d {
      assert (x / d - m) * d == x - m * d;
    }
  }

  /** A file passes iff its type is the tab's (the ALL tab passes every
      type), its lowercased name contains the lowercased query, and it is
      at least the minimum size. */
  predicate Matches(file: TdFile, filterType: FileType, query: string, minSize: int) {
    && (filterType == All || file.fileType == filterType)
    && Contains(ToLower(file.name), ToLower(query))
    && SizeMatches(file.size, minSize)
  }

  /** `filteredFiles`: the files that pass, in their original order. */
  function FilteredFiles(files: seq<TdFile>, filterType: FileType, query: string, minSize: int): (r: seq<TdFile>)
    ensures |r| <= |files|
    ensures IsSubsequence(r, files)
    ensures forall i :: 0 <= i < |r| ==> r[i] in files && Matches(r[i], filterType, query, minSize)
    ensures forall i :: 0 <= i < |files| && Matches(files[i], filterType, query, minSize) ==> files[i] in r
    ensures forall f :: multiset(r)[f] == if Matches(f, filterType, query, minSize) then multiset(files)[f] else 0
  {
    Filter(files, f => Matches(f, filterType, query, minSize))
  }

  /** With the ALL tab, an empty query and no minimum size every file is
      shown, in order. */
  lemma FilteredFilesUnfiltered(files: seq<TdFile>)
    ensures FilteredFiles(files, All, "", 0) == files
  {
    forall f: TdFile ensures Matches(f, All, "", 0) {
      ContainsEmpty(ToLower(f.name));
    }
    FilterAll(files, f => Matches(f, All, "", 0));
  }

  /** A concrete tab shows only files of its own type. */
  lemma FilteredFilesOfType(files: seq<TdFile>, t: FileType, query: string, minSize: int)
    requires t.IsConcrete()
    ensures forall i :: 0 <= i < |FilteredFiles(files, t, query, minSize)| ==>
      FilteredFiles(files, t, query, minSize)[i].fileType == t
  {
  }

  // ---------------------------------------------------------------------
  // Selection
  // ---------------------------------------------------------------------

  /** `toggleSelection`: drop every occurrence of a selected id, append an
      unselected one. */
  function Toggle(selected: seq<int>, id: int): (r: seq<int>)
    ensures id in selected ==> id !in r && forall x :: x != id ==> (x in r <==> x in selected)
    ensures id in selected ==> IsSubsequence(r, selected) && multiset(r) == multiset(selected)[id := 0]
    ensures id !in selected ==> r == selected + [id]
  {
    if id in selected then Without(selected, id) else selected + [id]
  }

  /** Toggling twice restores which ids are selected; when the id was not
      selected it restores the list itself. */
  lemma ToggleTwice(selected: seq<int>, id: int)
    ensures forall x :: x in Toggle(Toggle(selected, id), id) <==> x in selected
    ensures id !in selected ==> Toggle(Toggle(selected, id), id) == selected
    ensures id in selected ==> multiset(Toggle(Toggle(selected, id), id)) == multiset(selected)[id := 1]
  {
    if id !in selected {
      WithoutAppended(selected, id);
    } else {
      var once := Toggle(selected, id);
      assert Toggle(once, id) == once + [id];
    }
  }

  function Ids(files: seq<TdFile>): (r: seq<int>)
    ensures |r| == |files|
    ensures forall i :: 0 <= i < |files| ==> r[i] == files[i].id
  {
    seq(|files|, i requires 0 <= i < |files| => files[i].id)
  }

  /** `handleSelectAll`: clear the selection when it is as long as the
      visible list, otherwise select every visible file, in order. */
  function SelectAll(selected: seq<int>, visible: seq<TdFile>): (r: seq<int>)
    ensures |selected| == |visible| ==> r == []
    ensures |selected| != |visible| ==> r == Ids(visible)
  {
    if |selected| == |visible| then [] else Ids(visible)
  }

  /** Pressing select-all on a partial selection selects every visible
      file, and pressing it again clears the selection. */
  lemma SelectAllTwice(selected: seq<int>, visible: seq<TdFile>)
    requires |selected| != |visible|
    ensures forall f :: f in visible ==> f.id in SelectAll(selected, visible)
    ensures SelectAll(SelectAll(selected, visible), visible) == []
  {
    forall f | f in visible ensures f.id in SelectAll(selected, visible) {
      var i :| 0 <= i < |visible| && visible[i] == f;
      assert SelectAll(selected, visible)[i] == f.id;
    }
  }

  /** The test compares lengths only: a selection made under another filter
      that happens to have as many ids as the visible list is cleared, even
      though none of the visible files is in it. */
  lemma SelectAllComparesLengthsOnly(a: TdFile, b: TdFile)
    requires a.id == 3 && b.id == 4
    ensures SelectAll([1, 2], [a, b]) == []
    ensures a.id !in [1, 2] && b.id !in [1, 2]
  {
  }

  // ---------------------------------------------------------------------
  // Bulk download
  // ---------------------------------------------------------------------

  /** `files.find(f => f.id === id)`: the first file with that id. */
  function FindById(files: seq<TdFile>, id: int): (r: Option<TdFile>)
    ensures r.None? <==> forall i :: 0 <= i < |files| ==> files[i].id != id
    ensures r.Some? ==> r.value in files && r.value.id == id
    ensures r.Some? ==> exists k :: (0 <= k < |files| && files[k] == r.value &&
      forall j :: 0 <= j < k ==> files[j].id != id)
  {
    if files == [] then None
    else if files[0].id == id then Some(files[0])
    else
      var r := FindById(files[1..], id);
      if r.Some? then
        var k :| 0 <= k < |files[1..]| && files[1..][k] == r.value &&
          forall j :: 0 <= j < k ==> files[1..][j].id != id;
        assert files[k + 1] == r.value;
        r
      else r
  }

  function DownloadCommand(f: TdFile): Command {
    StartDownload(f.id, f.name, f.size)
  }

  /** The downloads `handleDownloadSelected` issues: one per selected id
      that names a file, in selection order. */
  function DownloadsFor(selected: seq<int>, files: seq<TdFile>): seq<Command>
    decreases |selected|
  {
    if selected == [] then []
    else
      var rest := DownloadsFor(selected[1..], files);
      match FindById(files, selected[0])
      case Some(f) => [DownloadCommand(f)] + rest
      case None => rest
  }

  /** Every issued download starts a listed file that was selected, and
      every selected id that names a file is downloaded; ids naming no file
      are skipped. */
  lemma {:induction false} DownloadsForSound(selected: seq<int>, files: seq<TdFile>)
    ensures |DownloadsFor(selected, files)| <= |selected|
    ensures forall c :: c in DownloadsFor(selected, files) ==>
      exists f :: f in files && f.id in selected && c == DownloadCommand(f)
    ensures forall id :: id in selected && FindById(files, id).Some? ==>
      DownloadCommand(FindById(files, id).value) in DownloadsFor(selected, files)
    decreases |selected|
  {
    if selected != [] {
      DownloadsForSound(selected[1..], files);
      forall id | id in selected && FindById(files, id).Some?
        ensures DownloadCommand(FindById(files, id).value) in DownloadsFor(selected, files)
      {
        if id != selected[0] {
          assert id in selected[1..];
        }
      }
    }
  }

  /** When every selected id names a file, exactly one download per
      selected id is issued. */
  lemma {:induction false} DownloadsForAllFound(selected: seq<int>, files: seq<TdFile>)
    requires forall i :: 0 <= i < |selected| ==> FindById(files, selected[i]).Some?
    ensures |DownloadsFor(selected, files)| == |selected|
    decreases |selected|
  {
    if selected != [] {
      DownloadsForAllFound(selected[1..], files);
    }
  }

  /** Issuing downloads for one more selected id extends the earlier
      downloads. */
  lemma {:induction false} DownloadsForSnoc(selected: seq<int>, id: int, files: seq<TdFile>)
    ensures DownloadsFor(selected + [id], files) == DownloadsFor(selected, files) + DownloadsFor([id], files)
    decreases |selected|
  {
    if selected == [] {
      assert selected + [id] == [id];
    } else {
      assert (selected + [id])[1..] == selected[1..] + [id];
      DownloadsForSnoc(selected[1..], id, files);
    }
  }

  /** The `forEach` loop of `handleDownloadSelected`. */
  method StartDownloads(selected: seq<int>, files: seq<TdFile>) returns (commands: seq<Command>)
    ensures commands == DownloadsFor(selected, files)
  {
    commands := [];
    var i := 0;
    while i < |selected|
      invariant 0 <= i <= |selected|
      invariant commands == DownloadsFor(selected[..i], files)
    {
      DownloadsForSnoc(selected[..i], selected[i], files);
      assert selected[..i + 1] == selected[..i] + [selected[i]];
      var found := FindById(files, selected[i]);
      if found.Some? {
        commands := commands + [DownloadCommand(found.value)];
      }
      i := i + 1;
    }
    assert selected[..i] == selected;
  }

  // ---------------------------------------------------------------------
  // The component's state
  // ---------------------------------------------------------------------

  class FileBrowserState {
    var files: seq<TdFile>
    var loading: bool
    var filterType: FileType
    var searchQuery: string
    var minSize: int
    var selected: seq<int>

    constructor ()
      ensures files == [] && !loading && filterType == All && searchQuery == "" && minSize == 0 && selected == []
    {
      files := [];
      loading := false;
      filterType := All;
      searchQuery := "";
      minSize := 0;
      selected := [];
    }

    function Visible(): seq<TdFile>
      reads this
    {
      FilteredFiles(files, filterType, searchQuery, minSize)
    }

    /** The effect on `chatId`: for a chat (a truthy id) start loading,
        clear the files and the selection and ask for the chat's files;
        for no chat, or the falsy id 0, do nothing. */
    method ChatChanged(chatId: Option<int>) returns (commands: seq<Command>)
      modifies this`files, this`selected, this`loading
      ensures chatId.Some? && chatId.value != 0 ==>
        files == [] && selected == [] && loading && commands == [GetFiles(chatId.value)]
      ensures !(chatId.Some? && chatId.value != 0) ==>
        files == old(files) && selected == old(selected) && loading == old(loading) && commands == []
    {
      commands := [];
      if chatId.Some? && chatId.value != 0 {
        loading := true;
        files := [];
        selected := [];
        commands := [GetFiles(chatId.value)];
      }
    }

    /** The `files_update` listener. */
    method OnFilesUpdate(newFiles: seq<TdFile>)
      modifies this`files, this`loading
      ensures files == newFiles && !loading
    {
      files := newFiles;
      loading := false;
    }

    /** The tab, search box and size field: the visible list is refiltered
      from the same files, and clearing every filter shows them all. */
    method SetFilters(t: FileType, query: string, size: int)
      modifies this`filterType, this`searchQuery, this`minSize
      ensures filterType == t && searchQuery == query && minSize == size
      ensures Visible() == FilteredFiles(files, t, query, size)
      ensures t == All && query == "" && size == 0 ==> Visible() == files
    {
      FilteredFilesUnfiltered(files);
      filterType := t;
      searchQuery := query;
      minSize := size;
    }

    method ToggleSelection(id: int)
      modifies this`selected
      ensures selected == Toggle(old(selected), id)
    {
      if id in selected {
        selected := Without(selected, id);
      } else {
        selected := selected + [id];
      }
    }

    method HandleSelectAll()
      modifies this`selected
      ensures selected == SelectAll(old(selected), Visible())
    {
      var visible := FilteredFiles(files, filterType, searchQuery, minSize);
      if |selected| == |visible| {
        selected := [];
      } else {
        selected := Ids(visible);
      }
    }

    /** `handleDownloadSelected`: issue the downloads, then clear the
        selection. */
    method DownloadSelected() returns (commands: seq<Command>)
      modifies this`selected
      ensures commands == DownloadsFor(old(selected), files)
      ensures selected == []
    {
      commands := StartDownloads(selected, files);
      selected := [];
    }
  }
}
