/**
 * The moodboard selection kept by the upload screen (App.tsx:115-138): at
 * most five files, added from a file picker and removed one at a time. The
 * file type is a parameter: nothing here looks inside a file.
 */
module Upload {
  import opened Types

  /** The number of files a moodboard may hold (App.tsx:131-132). */
  const MaxFiles: nat := 5

  /**
   * `handleFiles`: a `null` file list (`None`) changes nothing; otherwise at
   * most five of the picked files are appended and the whole selection is
   * cut back to five.
   */
  function HandleFiles<F>(selected: seq<F>, files: Option<seq<F>>): (r: seq<F>)
    ensures files.None? ==> r == selected
    ensures files.Some? ==> |r| <= MaxFiles
    ensures files.Some? ==> |r| == if |selected| + |files.value| < MaxFiles then |selected| + |files.value| else MaxFiles
    ensures files.Some? ==> forall i :: 0 <= i < |r| ==> r[i] == (selected + files.value)[i]
  {
    match files
    case None => selected
    case Some(picked) => Take(selected + Take(picked, MaxFiles), MaxFiles)
  }

  /**
   * A selection within the cap is kept as a prefix, in its order, and is
   * followed by the first picked files that still fit, in their order.
   */
  lemma HandleFilesAppends<F>(selected: seq<F>, picked: seq<F>)
    requires |selected| <= MaxFiles
    ensures HandleFiles(selected, Some(picked)) == selected + Take(picked, MaxFiles - |selected|)
  {
    var r := HandleFiles(selected, Some(picked));
    var expected := selected + Take(picked, MaxFiles - |selected|);
    assert |r| == |expected|;
    forall i | 0 <= i < |r| ensures r[i] == expected[i] {
      if i >= |selected| {
        assert r[i] == picked[i - |selected|];
      }
    }
  }

  /**
   * `removeFile`: `filter((_, i) => i !== index)`, written as the filter
   * walks the list: `index` counts down as the walk moves right.
   */
  function RemoveFile<F>(selected: seq<F>, index: int): (r: seq<F>)
    ensures 0 <= index < |selected| ==> r == selected[..index] + selected[index + 1..]
    ensures !(0 <= index < |selected|) ==> r == selected
    decreases |selected|
  {
    if selected == [] then []
    else (if index == 0 then [] else [selected[0]]) + RemoveFile(selected[1..], index - 1)
  }

  /** Removing a file never leaves more than the cap allows, and frees exactly one place. */
  lemma RemoveFileFreesOnePlace<F>(selected: seq<F>, index: int, picked: F)
    requires |selected| <= MaxFiles
    requires 0 <= index < |selected|
    ensures |RemoveFile(selected, index)| == |selected| - 1
    ensures HandleFiles(RemoveFile(selected, index), Some([picked])) == RemoveFile(selected, index) + [picked]
  {
    HandleFilesAppends(RemoveFile(selected, index), [picked]);
  }
}
