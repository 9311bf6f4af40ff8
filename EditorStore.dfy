/**
 * The editor's open-files store (apps/web/src/store/editor-store.ts): the
 * active file, the list of open files and the file contents, replaced
 * wholesale by each action.
 */
module EditorStore {
  import opened Wrappers

  /** `files.filter((id) => id !== fileId)`. */
  function Without(files: seq<string>, id: string): (r: seq<string>)
    ensures forall x :: x in r <==> x in files && x != id
    ensures |r| <= |files|
  {
    if |files| == 0 then []
    else if files[0] == id then Without(files[1..], id)
    else [files[0]] + Without(files[1..], id)
  }

  /** Filtering distributes over concatenation, so the files kept stay in their order. */
  lemma {:induction false} WithoutConcat(a: seq<string>, b: seq<string>, id: string)
    ensures Without(a + b, id) == Without(a, id) + Without(b, id)
    decreases |a|
  {
    if |a| == 0 {
      assert a + b == b;
    } else {
      assert (a + b)[1..] == a[1..] + b;
      WithoutConcat(a[1..], b, id);
    }
  }

  /** No file appears twice. */
  predicate NoDuplicates(files: seq<string>)
  {
    forall i, j :: 0 <= i < j < |files| ==> files[i] != files[j]
  }

  /** Filtering keeps a list free of duplicates. */
  lemma {:induction false} WithoutNoDuplicates(files: seq<string>, id: string)
    requires NoDuplicates(files)
    ensures NoDuplicates(Without(files, id))
    decreases |files|
  {
    if |files| > 0 {
      WithoutNoDuplicates(files[1..], id);
      var rest := Without(files[1..], id);
      if files[0] != id {
        assert files[0] !in files[1..];
        assert files[0] !in rest;
        var r := [files[0]] + rest;
        forall i, j | 0 <= i < j < |r| ensures r[i] != r[j] {
          if i == 0 {
            assert r[j] in rest;
          } else {
            assert r[i] == rest[i - 1] && r[j] == rest[j - 1];
          }
        }
      }
    }
  }

  /** The active file, if any, is one of the open files. */
  predicate ActiveIsOpen(files: seq<string>, active: Option<string>)
  {
    active.Some? ==> active.value in files
  }

  /** `list[0] || null`: the first entry, unless the list is empty or that entry is the empty string. */
  function FirstOrNull(files: seq<string>): (r: Option<string>)
    ensures r.Some? ==> |files| > 0 && r.value == files[0] && r.value != ""
    ensures r.None? <==> |files| == 0 || files[0] == ""
  {
    if |files| > 0 && files[0] != "" then Some(files[0]) else None
  }

  /**
   * The active file after `closeFile(id)` as the store computes it: when the
   * closed file was active, the first entry of the list before removal becomes
   * active, which is the closed file itself when it was first in the list.
   */
  function ClosedActiveAsWritten(files: seq<string>, active: Option<string>, id: string): Option<string>
  {
    if active == Some(id) then FirstOrNull(files) else active
  }

  /** Closing the active first tab of `["a", "b"]` leaves "a" active although it is no longer open. */
  lemma ClosedFileStaysActive()
    ensures Without(["a", "b"], "a") == ["b"]
    ensures ClosedActiveAsWritten(["a", "b"], Some("a"), "a") == Some("a")
    ensures !ActiveIsOpen(Without(["a", "b"], "a"), ClosedActiveAsWritten(["a", "b"], Some("a"), "a"))
  {
    assert Without(["b"], "a") == ["b"];
    assert "a" !in ["b"];
  }

  /**
   * The active file after `closeFile(id)` as evidently intended: when the
   * closed file was active, the first of the files still open (or none);
   * otherwise the active file is kept.
   */
  function ClosedActive(files: seq<string>, active: Option<string>, id: string): (r: Option<string>)
    ensures r != Some(id)
    ensures active != Some(id) ==> r == active
    ensures active == Some(id) && r.Some? ==> r.value in files && r.value != id
  {
    if active == Some(id) then
      var rest := Without(files, id);
      assert |rest| > 0 ==> rest[0] in rest;
      FirstOrNull(rest)
    else active
  }

  class EditorStore {
    var activeFileId: Option<string>
    var openFiles: seq<string>
    var fileContents: map<string, string>

    /** The open-files list never holds a file twice. */
    ghost predicate Valid()
      reads this
    {
      NoDuplicates(openFiles)
    }

    constructor ()
      ensures activeFileId.None? && openFiles == [] && fileContents == map[] && Valid()
    {
      activeFileId := None;
      openFiles := [];
      fileContents := map[];
    }

    /** `setActiveFile`: only the active file changes. */
    method SetActiveFile(id: string)
      modifies this
      ensures activeFileId == Some(id)
      ensures openFiles == old(openFiles) && fileContents == old(fileContents)
    {
      activeFileId := Some(id);
    }

    /** `openFile`: appended only when not already open, and always made active. */
    method OpenFile(id: string)
      requires Valid()
      modifies this
      ensures Valid() && ActiveIsOpen(openFiles, activeFileId)
      ensures openFiles == if id in old(openFiles) then old(openFiles) else old(openFiles) + [id]
      ensures activeFileId == Some(id)
      ensures fileContents == old(fileContents)
    {
      if id !in openFiles {
        openFiles := openFiles + [id];
      }
      activeFileId := Some(id);
    }

    /**
     * `closeFile`, with the corrected choice of the next active file: the
     * file leaves the list (the others keep their order) and is no longer
     * active; a file that was not active leaves the active file alone.
     */
    method CloseFile(id: string)
      requires Valid()
      modifies this
      ensures Valid()
      ensures openFiles == Without(old(openFiles), id)
      ensures activeFileId == ClosedActive(old(openFiles), old(activeFileId), id)
      ensures id !in openFiles && activeFileId != Some(id)
      ensures ActiveIsOpen(old(openFiles), old(activeFileId)) ==> ActiveIsOpen(openFiles, activeFileId)
      ensures fileContents == old(fileContents)
    {
      var remaining := Without(openFiles, id);
      WithoutNoDuplicates(openFiles, id);
      activeFileId := ClosedActive(openFiles, activeFileId, id);
      openFiles := remaining;
    }

    /** `updateFileContent`: only that file's content changes. */
    method UpdateFileContent(id: string, content: string)
      modifies this
      ensures fileContents == old(fileContents)[id := content]
      ensures activeFileId == old(activeFileId) && openFiles == old(openFiles)
    {
      fileContents := fileContents[id := content];
    }
  }
}
