/** The `ContractFile` record shared by uploads and reports, and the list
    operations the audit page applies to lists of them. */
module ContractFiles {
  import opened Sequences

  /** One source file or one report: `{ name, path, content }`. */
  datatype ContractFile = ContractFile(name: string, path: string, content: string)

  /** No two entries share a name (the key of the upload list). */
  predicate UniqueNames(files: seq<ContractFile>)
  {
    forall i, j :: 0 <= i < j < |files| ==> files[i].name != files[j].name
  }

  /** No two entries share a path (the key of the report list). */
  predicate UniquePaths(files: seq<ContractFile>)
  {
    forall i, j :: 0 <= i < j < |files| ==> files[i].path != files[j].path
  }

  /** `files.filter(f => f.path !== path)`: drops exactly the entries with that path. */
  function RemoveByPath(files: seq<ContractFile>, path: string): (r: seq<ContractFile>)
    ensures |r| <= |files|
    ensures forall f :: f in r ==> f in files && f.path != path
    ensures forall f :: f in files && f.path != path ==> f in r
  {
    if files == [] then []
    else if files[0].path == path then RemoveByPath(files[1..], path)
    else [files[0]] + RemoveByPath(files[1..], path)
  }

  /** Filtering distributes over concatenation, so the survivors keep their order. */
  lemma {:induction false} RemoveByPathConcat(a: seq<ContractFile>, b: seq<ContractFile>, path: string)
    ensures RemoveByPath(a + b, path) == RemoveByPath(a, path) + RemoveByPath(b, path)
  {
    if a == [] {
      assert a + b == b;
    } else {
      var x := a[0];
      assert (a + b)[0] == x;
      assert (a + b)[1..] == a[1..] + b;
      RemoveByPathConcat(a[1..], b, path);
      if x.path != path {
        calc {
          RemoveByPath(a + b, path);
          [x] + RemoveByPath(a[1..] + b, path);
          [x] + (RemoveByPath(a[1..], path) + RemoveByPath(b, path));
          ([x] + RemoveByPath(a[1..], path)) + RemoveByPath(b, path);
        }
      }
    }
  }

  /** A list without that path is left as it is. */
  lemma {:induction false} RemoveByPathAbsent(files: seq<ContractFile>, path: string)
    requires forall i :: 0 <= i < |files| ==> files[i].path != path
    ensures RemoveByPath(files, path) == files
  {
    if files != [] {
      RemoveByPathAbsent(files[1..], path);
    }
  }

  /** Putting a file with a fresh name in front keeps names unique. */
  lemma ConsKeepsNamesUnique(x: ContractFile, rest: seq<ContractFile>)
    requires UniqueNames(rest)
    requires forall g :: g in rest ==> g.name != x.name
    ensures UniqueNames([x] + rest)
  {
    var r := [x] + rest;
    forall i, j | 0 <= i < j < |r| ensures r[i].name != r[j].name {
      assert r[j] == rest[j - 1];
      if i > 0 { assert r[i] == rest[i - 1]; }
    }
  }

  /** Putting a file with a fresh path in front keeps paths unique. */
  lemma ConsKeepsPathsUnique(x: ContractFile, rest: seq<ContractFile>)
    requires UniquePaths(rest)
    requires forall g :: g in rest ==> g.path != x.path
    ensures UniquePaths([x] + rest)
  {
    var r := [x] + rest;
    forall i, j | 0 <= i < j < |r| ensures r[i].path != r[j].path {
      assert r[j] == rest[j - 1];
      if i > 0 { assert r[i] == rest[i - 1]; }
    }
  }

  /** Filtering keeps names unique. */
  lemma {:induction false} RemoveByPathKeepsNamesUnique(files: seq<ContractFile>, path: string)
    requires UniqueNames(files)
    ensures UniqueNames(RemoveByPath(files, path))
  {
    if files != [] {
      var rest := files[1..];
      assert UniqueNames(rest) by {
        forall i, j | 0 <= i < j < |rest| ensures rest[i].name != rest[j].name {
          assert rest[i] == files[i + 1] && rest[j] == files[j + 1];
        }
      }
      RemoveByPathKeepsNamesUnique(rest, path);
      if files[0].path != path {
        forall g | g in RemoveByPath(rest, path) ensures g.name != files[0].name {
          var k :| 0 <= k < |rest| && rest[k] == g;
          assert rest[k] == files[k + 1];
        }
        ConsKeepsNamesUnique(files[0], RemoveByPath(rest, path));
      }
    }
  }

  /** Filtering keeps paths unique. */
  lemma {:induction false} RemoveByPathKeepsPathsUnique(files: seq<ContractFile>, path: string)
    requires UniquePaths(files)
    ensures UniquePaths(RemoveByPath(files, path))
  {
    if files != [] {
      var rest := files[1..];
      assert UniquePaths(rest) by {
        forall i, j | 0 <= i < j < |rest| ensures rest[i].path != rest[j].path {
          assert rest[i] == files[i + 1] && rest[j] == files[j + 1];
        }
      }
      RemoveByPathKeepsPathsUnique(rest, path);
      if files[0].path != path {
        forall g | g in RemoveByPath(rest, path) ensures g.path != files[0].path {
          var k :| 0 <= k < |rest| && rest[k] == g;
          assert rest[k] == files[k + 1];
        }
        ConsKeepsPathsUnique(files[0], RemoveByPath(rest, path));
      }
    }
  }

  /** `files.findIndex(f => f.name === name)`. */
  function FindIndexByName(files: seq<ContractFile>, name: string): int
  {
    FindIndex(files, (f: ContractFile) => f.name, name)
  }
}
