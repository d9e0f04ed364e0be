/** The upload list update in `handleFiles` (src/app/audit/page.tsx): each
    new file, in batch order, overwrites the first entry with its name or is
    appended. */
module AuditUploads {
  import opened Wrappers
  import opened ContractFiles

  /** One step of the `forEach`: overwrite the first entry with the same name, else push. */
  function MergeOne(files: seq<ContractFile>, newFile: ContractFile): (r: seq<ContractFile>)
    ensures |r| == |files| || |r| == |files| + 1
    ensures |r| == |files| + 1 <==> forall i :: 0 <= i < |files| ==> files[i].name != newFile.name
    ensures newFile in r
    ensures forall i :: 0 <= i < |files| ==> r[i].name == files[i].name
    ensures forall i :: 0 <= i < |files| && files[i].name != newFile.name ==> r[i] == files[i]
    ensures forall f :: f in r ==> f in files || f == newFile
    ensures var k := FindIndexByName(files, newFile.name);
      k >= 0 ==> r[k] == newFile && forall i :: 0 <= i < |files| && i != k ==> r[i] == files[i]
  {
    var existingIndex := FindIndexByName(files, newFile.name);
    if existingIndex != -1 then
      var r := files[existingIndex := newFile];
      assert r[existingIndex] == newFile;
      r
    else files + [newFile]
  }

  /** The whole batch, folded from the left. */
  function Merge(files: seq<ContractFile>, batch: seq<ContractFile>): seq<ContractFile>
    decreases |batch|
  {
    if batch == [] then files else Merge(MergeOne(files, batch[0]), batch[1..])
  }

  /** `const newFiles = [...prevFiles]; contractFiles.forEach(...)`. */
  method MergeUploads(prevFiles: seq<ContractFile>, contractFiles: seq<ContractFile>)
    returns (newFiles: seq<ContractFile>)
    ensures newFiles == Merge(prevFiles, contractFiles)
  {
    newFiles := prevFiles;
    var i := 0;
    while i < |contractFiles|
      invariant 0 <= i <= |contractFiles|
      invariant Merge(newFiles, contractFiles[i..]) == Merge(prevFiles, contractFiles)
    {
      var newFile := contractFiles[i];
      assert contractFiles[i..][1..] == contractFiles[i + 1..];
      var existingIndex := FindIndexByName(newFiles, newFile.name);
      if existingIndex != -1 {
        newFiles := newFiles[existingIndex := newFile];
      } else {
        newFiles := newFiles + [newFile];
      }
      i := i + 1;
    }
    assert contractFiles[i..] == [];
  }

  /** Existing entries keep their positions and names; an entry whose name is
      not in the batch is left exactly as it was. */
  lemma {:induction false} MergeKeepsPositions(files: seq<ContractFile>, batch: seq<ContractFile>)
    ensures |Merge(files, batch)| >= |files|
    ensures forall i :: 0 <= i < |files| ==> Merge(files, batch)[i].name == files[i].name
    ensures forall i :: 0 <= i < |files| && (forall j :: 0 <= j < |batch| ==> batch[j].name != files[i].name)
              ==> Merge(files, batch)[i] == files[i]
    decreases |batch|
  {
    if batch != [] {
      var step := MergeOne(files, batch[0]);
      MergeKeepsPositions(step, batch[1..]);
      forall i | 0 <= i < |files| && (forall j :: 0 <= j < |batch| ==> batch[j].name != files[i].name)
        ensures Merge(files, batch)[i] == files[i]
      {
        assert step[i] == files[i];
        forall j | 0 <= j < |batch[1..]| ensures batch[1..][j].name != step[i].name {
          assert batch[1..][j] == batch[j + 1];
        }
      }
    }
  }

  /** Every entry of the result is an old entry or a file of the batch. */
  lemma {:induction false} MergeElements(files: seq<ContractFile>, batch: seq<ContractFile>)
    ensures forall f :: f in Merge(files, batch) ==> f in files || f in batch
    decreases |batch|
  {
    if batch != [] {
      MergeElements(MergeOne(files, batch[0]), batch[1..]);
      forall f | f in batch[1..] ensures f in batch { }
    }
  }

  /** Names that were unique stay unique. */
  lemma {:induction false} MergeKeepsNamesUnique(files: seq<ContractFile>, batch: seq<ContractFile>)
    requires UniqueNames(files)
    ensures UniqueNames(Merge(files, batch))
    decreases |batch|
  {
    if batch != [] {
      var step := MergeOne(files, batch[0]);
      assert UniqueNames(step) by {
        if |step| == |files| + 1 {
          assert step == files + [batch[0]];
        }
      }
      MergeKeepsNamesUnique(step, batch[1..]);
    }
  }

  /** A batch with no file of that name leaves the first entry of that name
      where it is and as it is. */
  lemma {:induction false} MergeKeepsFirstOfOtherName(files: seq<ContractFile>, batch: seq<ContractFile>, name: string)
    requires FindIndexByName(files, name) >= 0
    requires forall j :: 0 <= j < |batch| ==> batch[j].name != name
    ensures FindIndexByName(Merge(files, batch), name) == FindIndexByName(files, name)
    ensures Merge(files, batch)[FindIndexByName(files, name)] == files[FindIndexByName(files, name)]
  {
    var k := FindIndexByName(files, name);
    var r := Merge(files, batch);
    MergeKeepsPositions(files, batch);
    forall i | 0 <= i < k ensures r[i].name != name { }
  }

  /** The last file of the batch with a given name is the first entry with
      that name afterwards: when a batch repeats a name, the later file wins. */
  lemma {:induction false} MergeLaterFileWins(files: seq<ContractFile>, batch: seq<ContractFile>, i: int)
    requires 0 <= i < |batch|
    requires forall j :: i < j < |batch| ==> batch[j].name != batch[i].name
    ensures FindIndexByName(Merge(files, batch), batch[i].name) >= 0
    ensures Merge(files, batch)[FindIndexByName(Merge(files, batch), batch[i].name)] == batch[i]
    decreases |batch|
  {
    var step := MergeOne(files, batch[0]);
    if i == 0 {
      var name := batch[0].name;
      var k := FindIndexByName(step, name);
      assert step[k] == batch[0] by {
        var e := FindIndexByName(files, name);
        if e == -1 {
          assert step == files + [batch[0]];
        }
      }
      forall j | 0 <= j < |batch[1..]| ensures batch[1..][j].name != name {
        assert batch[1..][j] == batch[j + 1];
      }
      MergeKeepsFirstOfOtherName(step, batch[1..], name);
    } else {
      forall j | i - 1 < j < |batch[1..]| ensures batch[1..][j].name != batch[1..][i - 1].name {
        assert batch[1..][j] == batch[j + 1];
      }
      MergeLaterFileWins(step, batch[1..], i - 1);
    }
  }

  /** Reading the selected files (`Promise.all(files.map(f => f.text()))`):
      `None` when any read fails; otherwise one entry per file, in order,
      with the file name as both name and path. */
  datatype UploadedFile = UploadedFile(name: string, text: Option<string>)

  function ReadAll(files: seq<UploadedFile>): (r: Option<seq<ContractFile>>)
    ensures r.Some? <==> forall i :: 0 <= i < |files| ==> files[i].text.Some?
    ensures r.Some? ==> |r.value| == |files|
    ensures r.Some? ==> forall i :: 0 <= i < |files| ==>
      r.value[i] == ContractFile(files[i].name, files[i].name, files[i].text.value)
  {
    if files == [] then Some([])
    else if files[0].text.None? then None
    else
      var rest := ReadAll(files[1..]);
      if rest.None? then
        assert exists i :: 0 <= i < |files| && files[i].text.None? by {
          var j :| 0 <= j < |files[1..]| && files[1..][j].text.None?;
          assert files[1..][j] == files[j + 1];
        }
        None
      else
        var r := [ContractFile(files[0].name, files[0].name, files[0].text.value)] + rest.value;
        assert forall i :: 1 <= i < |files| ==> r[i] == rest.value[i - 1] && files[i] == files[1..][i - 1];
        Some(r)
  }

  /** Every file read is an upload keyed by its own name. */
  lemma ReadAllNamesArePaths(files: seq<UploadedFile>)
    requires ReadAll(files).Some?
    ensures forall f :: f in ReadAll(files).value ==> f.path == f.name
  {
  }
}
