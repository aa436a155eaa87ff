/** Which directories are treated as DAW projects: the registry as a map from
    DAW name to lowercased extensions (`read_daw_info`), the test for a
    project file in one listing (`check_for_project_directory`, present in
    make_json_dtb_file.py and repository_handling.py alike) and the pruning of
    candidate directories (`locate_project_directories`). */
module ProjectDirectories {
  import opened Wrappers
  import opened Seqs
  import opened PyStr
  import opened PyPath
  import opened PyErrors
  import opened FileSystem

  // -------------------------------------------------------------- registry

  /** `[ext.lower() for ext in row[1:]]`. */
  function LowerAll(xs: seq<string>): (r: seq<string>)
    ensures |r| == |xs| && forall i :: 0 <= i < |xs| ==> r[i] == Lower(xs[i])
  {
    seq(|xs|, i requires 0 <= i < |xs| => Lower(xs[i]))
  }

  /** The body of the row loop of `read_daw_info`, from `info` onwards:
      `csv.reader` yields `[]` for a blank line, and `row[0]` of it raises; a
      later row with the same name replaces an earlier one. */
  function AddRows(info: map<string, seq<string>>, rows: seq<seq<string>>): Result<map<string, seq<string>>, PyError>
    decreases |rows|
  {
    if rows == [] then Success(info)
    else if rows[0] == [] then Failure(IndexError)
    else AddRows(info[rows[0][0] := LowerAll(rows[0][1..])], rows[1..])
  }

  /** `read_daw_info`: skip the header (`next` of an empty reader raises
      `StopIteration`), then enter every row. */
  function DawInfo(csvRows: seq<seq<string>>): Result<map<string, seq<string>>, PyError> {
    if csvRows == [] then Failure(StopIteration) else AddRows(map[], csvRows[1..])
  }

  /** `read_daw_info` with its loop. */
  method ReadDawInfo(csvRows: seq<seq<string>>) returns (r: Result<map<string, seq<string>>, PyError>)
    ensures r == DawInfo(csvRows)
  {
    if csvRows == [] {
      return Failure(StopIteration);
    }
    var rows := csvRows[1..];
    var info: map<string, seq<string>> := map[];
    var i := 0;
    while i < |rows|
      invariant 0 <= i <= |rows|
      invariant AddRows(info, rows[i..]) == AddRows(map[], rows)
    {
      var row := rows[i];
      if row == [] {
        return Failure(IndexError);
      }
      assert rows[i..][1..] == rows[i + 1..];
      info := info[row[0] := LowerAll(row[1..])];
      i := i + 1;
    }
    assert rows[i..] == [];
    return Success(info);
  }

  /** Whether `rows[i]` is the last row that carries its name. */
  predicate IsLastRow(rows: seq<seq<string>>, i: int) {
    0 <= i < |rows| && rows[i] != [] &&
    forall j :: i < j < |rows| ==> rows[j] == [] || rows[j][0] != rows[i][0]
  }

  /** Reading the registry fails exactly when some row is blank. */
  lemma {:induction false} AddRowsFailure(info: map<string, seq<string>>, rows: seq<seq<string>>)
    ensures AddRows(info, rows).Failure? <==> exists i :: 0 <= i < |rows| && rows[i] == []
    decreases |rows|
  {
    if rows != [] {
      assert forall i :: 1 <= i < |rows| ==> rows[i] == rows[1..][i - 1];
      if rows[0] != [] {
        AddRowsFailure(info[rows[0][0] := LowerAll(rows[0][1..])], rows[1..]);
      }
    }
  }

  /** The keys of the registry are the earlier keys and the row names. */
  lemma {:induction false} AddRowsKeys(info: map<string, seq<string>>, rows: seq<seq<string>>)
    ensures AddRows(info, rows).Success? ==>
              forall name :: name in AddRows(info, rows).value <==>
                name in info || exists i :: 0 <= i < |rows| && rows[i] != [] && rows[i][0] == name
    decreases |rows|
  {
    if rows != [] && rows[0] != [] {
      assert forall i :: 1 <= i < |rows| ==> rows[i] == rows[1..][i - 1];
      AddRowsKeys(info[rows[0][0] := LowerAll(rows[0][1..])], rows[1..]);
    }
  }

  /** Each name maps to the lowercased extensions of the last row with that name. */
  lemma {:induction false} AddRowsLastWins(info: map<string, seq<string>>, rows: seq<seq<string>>)
    ensures AddRows(info, rows).Success? ==>
              forall i :: IsLastRow(rows, i) ==>
                rows[i][0] in AddRows(info, rows).value && AddRows(info, rows).value[rows[i][0]] == LowerAll(rows[i][1..])
    decreases |rows|
  {
    if rows != [] && rows[0] != [] {
      var next := info[rows[0][0] := LowerAll(rows[0][1..])];
      AddRowsLastWins(next, rows[1..]);
      if AddRows(info, rows).Success? {
        var m := AddRows(info, rows).value;
        forall i | IsLastRow(rows, i)
          ensures rows[i][0] in m && m[rows[i][0]] == LowerAll(rows[i][1..])
        {
          if i > 0 {
            assert IsLastRow(rows[1..], i - 1);
          } else {
            AddRowsUntouched(next, rows[1..]);
            assert forall j :: 0 <= j < |rows[1..]| && rows[1..][j] != [] ==> rows[1..][j][0] != rows[0][0] by {
              assert forall j :: 0 <= j < |rows[1..]| ==> rows[1..][j] == rows[j + 1];
            }
          }
        }
      }
    }
  }

  /** A name no row carries keeps its earlier value. */
  lemma {:induction false} AddRowsUntouched(info: map<string, seq<string>>, rows: seq<seq<string>>)
    ensures AddRows(info, rows).Success? ==>
              forall name :: name in info && (forall i :: 0 <= i < |rows| && rows[i] != [] ==> rows[i][0] != name) ==>
                name in AddRows(info, rows).value && AddRows(info, rows).value[name] == info[name]
    decreases |rows|
  {
    if rows != [] && rows[0] != [] {
      assert forall i :: 1 <= i < |rows| ==> rows[i] == rows[1..][i - 1];
      AddRowsUntouched(info[rows[0][0] := LowerAll(rows[0][1..])], rows[1..]);
    }
  }

  // ----------------------------------------------------- project directory

  /** Whether a name's lowercased `splitext` extension is listed for some DAW. */
  predicate IsDawFile(name: string, info: map<string, seq<string>>) {
    exists daw :: daw in info && Lower(Ext(name)) in info[daw]
  }

  /** `check_for_project_directory`: whether some entry of the listing is a DAW file. */
  predicate HasProjectFile(listing: seq<Entry>, info: map<string, seq<string>>) {
    listing != [] && (IsDawFile(listing[0].name, info) || HasProjectFile(listing[1..], info))
  }

  /** `check_for_project_directory` is true exactly when some entry's
      lowercased extension is in some DAW's list. */
  lemma {:induction false} HasProjectFileMeans(listing: seq<Entry>, info: map<string, seq<string>>)
    ensures HasProjectFile(listing, info) <==>
              exists i, daw :: 0 <= i < |listing| && daw in info && Lower(Ext(listing[i].name)) in info[daw]
  {
    if listing != [] {
      HasProjectFileMeans(listing[1..], info);
      assert forall i :: 1 <= i < |listing| ==> listing[i] == listing[1..][i - 1];
    }
  }

  /** The inner loop over `daw_info.values()`. */
  method InSomeValue(extension: string, info: map<string, seq<string>>) returns (found: bool)
    ensures found <==> exists daw :: daw in info && extension in info[daw]
  {
    var values := info.Values;
    while values != {}
      invariant values <= info.Values
      invariant forall v :: v in info.Values && v !in values ==> extension !in v
      decreases |values|
    {
      var v :| v in values;
      if extension in v {
        return true;
      }
      values := values - {v};
    }
    return false;
  }

  /** One iteration of the outer loop: the entry's lowercased extension
      against every DAW's list. */
  method CheckName(name: string, info: map<string, seq<string>>) returns (found: bool)
    ensures found == IsDawFile(name, info)
  {
    var extension := Lower(SplitExt(name).1);
    SplitExtRoundTrip(name);
    found := InSomeValue(extension, info);
  }

  /** `check_for_project_directory` with its two loops. */
  method CheckForProjectDirectory(listing: seq<Entry>, info: map<string, seq<string>>) returns (found: bool)
    ensures found == HasProjectFile(listing, info)
  {
    var i := 0;
    while i < |listing|
      invariant 0 <= i <= |listing|
      invariant HasProjectFile(listing[i..], info) == HasProjectFile(listing, info)
    {
      assert listing[i..][1..] == listing[i + 1..];
      found := CheckName(listing[i].name, info);
      if found {
        return true;
      }
      i := i + 1;
    }
    return false;
  }

  // --------------------------------------------------------------- pruning

  /** A candidate directory: its path and its listing. */
  datatype Candidate = Candidate(path: string, listing: seq<Entry>)

  const IgnoredNames: seq<string> := ["backup", "backups", "do_not_process"]

  /** The three conditions of `locate_project_directories`. */
  predicate Keep(c: Candidate, info: map<string, seq<string>>) {
    var deepest := Basename(c.path);
    !StartsWith(deepest, ".") && Lower(deepest) !in IgnoredNames && HasProjectFile(c.listing, info)
  }

  /** The paths of the candidates `keep` accepts, in input order. */
  function Pruned(dirs: seq<Candidate>, keep: Candidate -> bool): (r: seq<string>)
    ensures |r| <= |dirs|
    ensures forall p :: p in r ==> exists i :: 0 <= i < |dirs| && dirs[i].path == p && keep(dirs[i])
  {
    var kept := Filter(dirs, keep);
    var r := Map(kept, (c: Candidate) => c.path);
    assert forall p :: p in r ==> exists c :: c in kept && c.path == p by {
      forall p | p in r ensures exists c :: c in kept && c.path == p {
        var j :| 0 <= j < |r| && r[j] == p;
        assert kept[j] in kept;
      }
    }
    r
  }

  /** The filter of `locate_project_directories`. */
  function KeepFor(info: map<string, seq<string>>): Candidate -> bool {
    (c: Candidate) => Keep(c, info)
  }

  /** A path survives exactly when one of the candidates with that path is kept. */
  lemma PrunedMembers(dirs: seq<Candidate>, keep: Candidate -> bool)
    ensures forall p :: p in Pruned(dirs, keep) <==> exists i :: 0 <= i < |dirs| && dirs[i].path == p && keep(dirs[i])
  {
    var kept := Filter(dirs, keep);
    var r := Map(kept, (c: Candidate) => c.path);
    forall i | 0 <= i < |dirs| && keep(dirs[i])
      ensures dirs[i].path in r
    {
      assert dirs[i] in kept;
      var j :| 0 <= j < |kept| && kept[j] == dirs[i];
      assert r[j] == dirs[i].path;
    }
  }

  /** So the order of the kept directories is their input order. */
  lemma PrunedConcat(a: seq<Candidate>, b: seq<Candidate>, keep: Candidate -> bool)
    ensures Pruned(a + b, keep) == Pruned(a, keep) + Pruned(b, keep)
  {
    FilterConcat(a, b, keep);
    MapConcat(Filter(a, keep), Filter(b, keep), (c: Candidate) => c.path);
  }

  /** One more candidate extends the result by its path exactly when it is kept. */
  lemma PrunedSnoc(a: seq<Candidate>, c: Candidate, keep: Candidate -> bool, kept: bool)
    requires keep(c) == kept
    ensures Pruned(a + [c], keep) == Pruned(a, keep) + (if kept then [c.path] else [])
  {
    PrunedConcat(a, [c], keep);
  }

  /** `locate_project_directories`, reading the registry first. */
  function LocateProjects(dirs: seq<Candidate>, csvRows: seq<seq<string>>): Result<seq<string>, PyError> {
    var info :- DawInfo(csvRows);
    Success(Pruned(dirs, KeepFor(info)))
  }

  /** The tests of one iteration of `locate_project_directories`, each
      `continue` becoming an early `false`. */
  method KeepDirectory(c: Candidate, info: map<string, seq<string>>) returns (keep: bool)
    ensures keep == Keep(c, info)
  {
    var deepest := Basename(c.path);
    if StartsWith(deepest, ".") {
      return false;
    } else if Lower(deepest) in IgnoredNames {
      return false;
    }
    keep := CheckForProjectDirectory(c.listing, info);
  }

  /** One iteration of `locate_project_directories`: the candidate's path is
      appended exactly when it passes the three tests. */
  method PruneStep(done: seq<Candidate>, c: Candidate, info: map<string, seq<string>>, pruned: seq<string>)
    returns (next: seq<string>)
    requires pruned == Pruned(done, KeepFor(info))
    ensures next == Pruned(done + [c], KeepFor(info))
  {
    var keep := KeepDirectory(c, info);
    PrunedSnoc(done, c, KeepFor(info), keep);
    next := if keep then pruned + [c.path] else pruned;
  }

  /** The loop of `locate_project_directories` over a read registry. */
  method PruneDirectories(dirs: seq<Candidate>, info: map<string, seq<string>>) returns (pruned: seq<string>)
    ensures pruned == Pruned(dirs, KeepFor(info))
  {
    pruned := [];
    var i := 0;
    while i < |dirs|
      invariant 0 <= i <= |dirs|
      invariant pruned == Pruned(dirs[..i], KeepFor(info))
    {
      assert dirs[..i + 1] == dirs[..i] + [dirs[i]];
      pruned := PruneStep(dirs[..i], dirs[i], info, pruned);
      i := i + 1;
    }
    assert dirs[..i] == dirs;
  }

  /** `locate_project_directories`: the registry is read before the loop. */
  method LocateProjectDirectories(dirs: seq<Candidate>, csvRows: seq<seq<string>>) returns (r: Result<seq<string>, PyError>)
    ensures r == LocateProjects(dirs, csvRows)
  {
    var read := ReadDawInfo(csvRows);
    if read.Failure? {
      return Failure(read.error);
    }
    var pruned := PruneDirectories(dirs, read.value);
    return Success(pruned);
  }

  /** For a directory `parent/name`, the tests look at `name` alone: it is kept
      exactly when `name` is not hidden, not an ignored name in any case, and
      its listing holds a DAW file. */
  lemma ChildKept(parent: string, name: string, listing: seq<Entry>, info: map<string, seq<string>>)
    requires '/' !in name
    ensures KeepFor(info)(Candidate(parent + "/" + name, listing)) <==>
              !StartsWith(name, ".") && Lower(name) !in IgnoredNames && HasProjectFile(listing, info)
  {
    BasenameOfChild(parent, name);
  }
}
