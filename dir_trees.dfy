/** The three shapes in which a project's file structure is recorded:
    `get_directory_tree_asDictionary` (a dict per level, `""` holding the
    level's files and every other key a subdirectory), `get_directory_tree_asList`
    (a list per level, files as names and subdirectories as one-key dicts) and
    `get_filepath_list` (one path per file of an `os.walk`, in both of its
    variants). */
module DirectoryTrees {
  import opened Wrappers
  import opened PyStr
  import opened PyPath
  import opened FileSystem

  // ------------------------------------------------------ dictionary form

  /** One level of `get_directory_tree_asDictionary`: the list under the key
      `""` and, in insertion order, the remaining keys with their subtrees. */
  datatype DictTree = DictTree(files: seq<string>, subdirs: seq<SubTree>)
  datatype SubTree = SubTree(name: string, tree: DictTree)

  /** The keys of the subdirectory part, in insertion order. */
  function Keys(subdirs: seq<SubTree>): (r: seq<string>)
    ensures |r| == |subdirs| && forall i :: 0 <= i < |subdirs| ==> r[i] == subdirs[i].name
  {
    if subdirs == [] then [] else [subdirs[0].name] + Keys(subdirs[1..])
  }

  /** `d.get(name)` on the subdirectory part. */
  function Lookup(subdirs: seq<SubTree>, name: string): Option<DictTree> {
    if subdirs == [] then None
    else if subdirs[0].name == name then Some(subdirs[0].tree)
    else Lookup(subdirs[1..], name)
  }

  /** `d[name] = t` on an insertion-ordered dict: an existing key keeps its
      place and gets the new value, a new key goes last. */
  function Assign(subdirs: seq<SubTree>, name: string, t: DictTree): seq<SubTree> {
    if subdirs == [] then [SubTree(name, t)]
    else if subdirs[0].name == name then [SubTree(name, t)] + subdirs[1..]
    else [subdirs[0]] + Assign(subdirs[1..], name, t)
  }

  /** Assignment semantics: the key now maps to the new value, every other key
      keeps its value, and a key not yet present is appended at the end. */
  lemma {:induction false} AssignMeans(subdirs: seq<SubTree>, name: string, t: DictTree)
    ensures Lookup(Assign(subdirs, name, t), name) == Some(t)
    ensures forall other :: other != name ==> Lookup(Assign(subdirs, name, t), other) == Lookup(subdirs, other)
    ensures name !in Keys(subdirs) ==> Assign(subdirs, name, t) == subdirs + [SubTree(name, t)]
  {
    if subdirs != [] && subdirs[0].name != name {
      AssignMeans(subdirs[1..], name, t);
      assert Keys(subdirs) == [subdirs[0].name] + Keys(subdirs[1..]);
      assert [subdirs[0]] + (subdirs[1..] + [SubTree(name, t)]) == subdirs + [SubTree(name, t)];
    }
  }

  /** `get_directory_tree_asDictionary` of a listing, entry by entry: a file's
      name (its path relative to the directory) is appended under `""`, a
      subdirectory is assigned its own tree. */
  function DictTreeOf(listing: seq<Entry>): DictTree
    decreases listing
  {
    if listing == [] then DictTree([], [])
    else
      var t := DictTreeOf(listing[..|listing| - 1]);
      match listing[|listing| - 1]
      case File(name) => DictTree(t.files + [name], t.subdirs)
      case Dir(name, children) => DictTree(t.files, Assign(t.subdirs, name, DictTreeOf(children)))
  }

  /** `get_directory_tree_asDictionary` with its loop and its recursive call. */
  method BuildDictTree(listing: seq<Entry>) returns (tree: DictTree)
    ensures tree == DictTreeOf(listing)
    decreases listing
  {
    var files: seq<string> := [];
    var subdirs: seq<SubTree> := [];
    var i := 0;
    while i < |listing|
      invariant 0 <= i <= |listing|
      invariant DictTree(files, subdirs) == DictTreeOf(listing[..i])
    {
      assert listing[..i + 1][..i] == listing[..i];
      match listing[i] {
        case File(name) =>
          files := files + [name];
        case Dir(name, children) =>
          var subtree := BuildDictTree(children);
          subdirs := Assign(subdirs, name, subtree);
      }
      i := i + 1;
    }
    assert listing[..i] == listing;
    tree := DictTree(files, subdirs);
  }

  /** The names of the directory entries of a listing, in listing order. */
  function DirNames(listing: seq<Entry>): (r: seq<string>)
    ensures |r| <= |listing|
    ensures forall n :: n in r <==> exists i :: 0 <= i < |listing| && listing[i].Dir? && listing[i].name == n
  {
    if listing == [] then []
    else
      assert forall i :: 1 <= i < |listing| ==> listing[i] == listing[1..][i - 1];
      (if listing[0].Dir? then [listing[0].name] else []) + DirNames(listing[1..])
  }

  lemma {:induction false} DirNamesConcat(a: seq<Entry>, b: seq<Entry>)
    ensures DirNames(a + b) == DirNames(a) + DirNames(b)
  {
    if a == [] {
      assert a + b == b;
    } else {
      assert (a + b)[1..] == a[1..] + b && (a + b)[0] == a[0];
      DirNamesConcat(a[1..], b);
    }
  }

  /** The entries of one directory carry distinct names (as on any filesystem). */
  predicate DistinctNames(listing: seq<Entry>) {
    forall i, j :: 0 <= i < j < |listing| ==> listing[i].name != listing[j].name
  }

  /** The list under `""` holds the level's file names in listing order. */
  lemma {:induction false} DictTreeFiles(listing: seq<Entry>)
    ensures DictTreeOf(listing).files == FileNames(listing)
    decreases |listing|
  {
    if listing != [] {
      var n := |listing| - 1;
      assert listing == listing[..n] + [listing[n]];
      DictTreeFiles(listing[..n]);
      FileNamesConcat(listing[..n], [listing[n]]);
    }
  }

  /** On a listing with distinct names the keys other than `""` are the
      directory names in listing order. */
  lemma {:induction false} DictTreeKeys(listing: seq<Entry>)
    requires DistinctNames(listing)
    ensures Keys(DictTreeOf(listing).subdirs) == DirNames(listing)
    decreases |listing|
  {
    if listing != [] {
      var n := |listing| - 1;
      var init := listing[..n];
      var last := listing[n];
      assert listing == init + [last];
      assert DistinctNames(init);
      DictTreeKeys(init);
      DirNamesConcat(init, [last]);
      if last.Dir? {
        var t := DictTreeOf(init);
        assert last.name !in DirNames(init) by {
          if last.name in DirNames(init) {
            DirNamesFrom(init, last.name);
          }
        }
        AssignMeans(t.subdirs, last.name, DictTreeOf(last.children));
        KeysConcat(t.subdirs, [SubTree(last.name, DictTreeOf(last.children))]);
      }
    }
  }

  /** On a listing with distinct names every directory's key maps to the
      tree of that directory. */
  lemma {:induction false} DictTreeLookup(listing: seq<Entry>)
    requires DistinctNames(listing)
    ensures forall i :: 0 <= i < |listing| && listing[i].Dir? ==>
              Lookup(DictTreeOf(listing).subdirs, listing[i].name) == Some(DictTreeOf(listing[i].children))
    decreases |listing|
  {
    if listing != [] {
      var n := |listing| - 1;
      var init := listing[..n];
      var last := listing[n];
      assert listing[..n] == init;
      assert DistinctNames(init);
      DictTreeLookup(init);
      var t := DictTreeOf(init);
      if last.Dir? {
        AssignMeans(t.subdirs, last.name, DictTreeOf(last.children));
      }
      forall i | 0 <= i < |listing| && listing[i].Dir?
        ensures Lookup(DictTreeOf(listing).subdirs, listing[i].name) == Some(DictTreeOf(listing[i].children))
      {
        if i < n {
          assert init[i] == listing[i];
        }
      }
    }
  }

  /** A directory name of a listing is the name of one of its entries. */
  lemma {:induction false} DirNamesFrom(listing: seq<Entry>, name: string)
    requires name in DirNames(listing)
    ensures exists i :: 0 <= i < |listing| && listing[i].name == name
  {
    if !(listing[0].Dir? && listing[0].name == name) {
      DirNamesFrom(listing[1..], name);
      var i :| 0 <= i < |listing[1..]| && listing[1..][i].name == name;
      assert listing[i + 1].name == name;
    }
  }

  lemma {:induction false} KeysConcat(a: seq<SubTree>, b: seq<SubTree>)
    ensures Keys(a + b) == Keys(a) + Keys(b)
  {
    if a == [] {
      assert a + b == b;
    } else {
      assert (a + b)[1..] == a[1..] + b && (a + b)[0] == a[0];
      KeysConcat(a[1..], b);
    }
  }

  /** The number of files recorded in a dictionary tree, at every level. */
  function TreeFileCount(t: DictTree): nat
    decreases t, 1
  {
    |t.files| + SubdirsFileCount(t.subdirs)
  }

  function SubdirsFileCount(subdirs: seq<SubTree>): nat
    decreases subdirs, 0
  {
    if subdirs == [] then 0 else TreeFileCount(subdirs[0].tree) + SubdirsFileCount(subdirs[1..])
  }

  lemma {:induction false} SubdirsFileCountConcat(a: seq<SubTree>, b: seq<SubTree>)
    ensures SubdirsFileCount(a + b) == SubdirsFileCount(a) + SubdirsFileCount(b)
  {
    if a == [] {
      assert a + b == b;
    } else {
      assert (a + b)[1..] == a[1..] + b && (a + b)[0] == a[0];
      SubdirsFileCountConcat(a[1..], b);
    }
  }

  /** Distinct names at every level of the tree below a listing. */
  predicate AllDistinct(listing: seq<Entry>)
    decreases listing
  {
    DistinctNames(listing) &&
    forall i :: 0 <= i < |listing| ==> (listing[i].Dir? ==> AllDistinct(listing[i].children))
  }

  /** On a real directory (distinct names at every level) the dictionary form
      records every file of the tree exactly once. */
  lemma {:induction false} DictTreeFileCount(listing: seq<Entry>)
    requires AllDistinct(listing)
    ensures TreeFileCount(DictTreeOf(listing)) == FileCount(listing)
    decreases listing
  {
    if listing != [] {
      var n := |listing| - 1;
      var init := listing[..n];
      var last := listing[n];
      assert listing == init + [last];
      assert AllDistinct(init) by {
        forall i | 0 <= i < |init|
          ensures init[i].Dir? ==> AllDistinct(init[i].children)
        {
          assert init[i] == listing[i];
        }
      }
      DictTreeFileCount(init);
      FileCountConcat(init, [last]);
      assert FileCount([last]) == (match last case File(_) => 1 case Dir(_, children) => FileCount(children));
      var t := DictTreeOf(init);
      if last.Dir? {
        DictTreeFileCount(last.children);
        assert last.name !in Keys(t.subdirs) by {
          DictTreeKeys(init);
          if last.name in DirNames(init) {
            DirNamesFrom(init, last.name);
          }
        }
        AssignMeans(t.subdirs, last.name, DictTreeOf(last.children));
        SubdirsFileCountConcat(t.subdirs, [SubTree(last.name, DictTreeOf(last.children))]);
      }
    }
  }

  // ------------------------------------------------------------ list form

  /** One item of `get_directory_tree_asList`: a file's bare name, or the
      one-key dict `{name: items}` of a subdirectory. */
  datatype ListItem = Name(name: string) | Folder(name: string, items: seq<ListItem>)

  /** `get_directory_tree_asList` of a listing. */
  function ListTreeOf(listing: seq<Entry>): seq<ListItem>
    decreases listing
  {
    if listing == [] then []
    else
      ListTreeOf(listing[..|listing| - 1]) +
      match listing[|listing| - 1]
      case File(name) => [Name(name)]
      case Dir(name, children) => [Folder(name, ListTreeOf(children))]
  }

  /** `get_directory_tree_asList` with its loop and its recursive call. */
  method BuildListTree(listing: seq<Entry>) returns (tree: seq<ListItem>)
    ensures tree == ListTreeOf(listing)
    decreases listing
  {
    tree := [];
    var i := 0;
    while i < |listing|
      invariant 0 <= i <= |listing|
      invariant tree == ListTreeOf(listing[..i])
    {
      assert listing[..i + 1][..i] == listing[..i];
      match listing[i] {
        case File(name) =>
          tree := tree + [Name(name)];
        case Dir(name, children) =>
          var subtree := BuildListTree(children);
          tree := tree + [Folder(name, subtree)];
      }
      i := i + 1;
    }
    assert listing[..i] == listing;
  }

  /** Reading a list tree back as a listing: names are files, one-key dicts are
      directories. */
  function ListingOf(items: seq<ListItem>): seq<Entry>
    decreases items
  {
    if items == [] then []
    else
      ListingOf(items[..|items| - 1]) +
      match items[|items| - 1]
      case Name(name) => [File(name)]
      case Folder(name, sub) => [Dir(name, ListingOf(sub))]
  }

  /** The list form loses nothing and reorders nothing: reading it back gives
      the listing, at every level. */
  lemma {:induction false} ListTreeRoundTrip(listing: seq<Entry>)
    ensures ListingOf(ListTreeOf(listing)) == listing
    ensures |ListTreeOf(listing)| == |listing|
    decreases listing
  {
    if listing != [] {
      var n := |listing| - 1;
      var init := listing[..n];
      var last := listing[n];
      ListTreeRoundTrip(init);
      var items := ListTreeOf(listing);
      assert items[..|items| - 1] == ListTreeOf(init);
      match last {
        case File(name) =>
          assert items[|items| - 1] == Name(name);
        case Dir(name, children) =>
          ListTreeRoundTrip(children);
          assert items[|items| - 1] == Folder(name, ListTreeOf(children));
      }
      assert listing == init + [last];
    }
  }

  // ------------------------------------------------------------ file paths

  /** One triple of `os.walk`. */
  datatype WalkStep = WalkStep(dirpath: string, dirnames: seq<string>, filenames: seq<string>)

  /** `os.walk(top)` top-down over a listing: the directory itself, then the
      walk of each subdirectory in listing order. Symbolic links are not
      followed (there are none in the model). */
  function Walk(top: string, listing: seq<Entry>): seq<WalkStep>
    decreases listing, 1
  {
    [WalkStep(top, DirNames(listing), FileNames(listing))] + WalkBelow(top, listing)
  }

  function WalkBelow(top: string, listing: seq<Entry>): seq<WalkStep>
    decreases listing, 0
  {
    if listing == [] then []
    else
      (match listing[0]
       case File(_) => []
       case Dir(name, children) => Walk(Join(top, name), children))
      + WalkBelow(top, listing[1..])
  }

  /** The number of file names in a walk. */
  function WalkedFiles(steps: seq<WalkStep>): nat {
    if steps == [] then 0 else |steps[0].filenames| + WalkedFiles(steps[1..])
  }

  lemma {:induction false} WalkedFilesConcat(a: seq<WalkStep>, b: seq<WalkStep>)
    ensures WalkedFiles(a + b) == WalkedFiles(a) + WalkedFiles(b)
  {
    if a == [] {
      assert a + b == b;
    } else {
      assert (a + b)[1..] == a[1..] + b && (a + b)[0] == a[0];
      WalkedFilesConcat(a[1..], b);
    }
  }

  /** The number of file names in a listing's own level. */
  lemma {:induction false} FileNamesCount(listing: seq<Entry>)
    ensures |FileNames(listing)| + WalkBelowCount(listing) == FileCount(listing)
  {
    if listing != [] {
      FileNamesCount(listing[1..]);
    }
  }

  /** The files of the tree that lie below the listing's own level. */
  function WalkBelowCount(listing: seq<Entry>): nat {
    if listing == [] then 0
    else (match listing[0] case File(_) => 0 case Dir(_, children) => FileCount(children))
         + WalkBelowCount(listing[1..])
  }

  /** A walk reports every file of the tree exactly once. */
  lemma {:induction false} WalkFileCount(top: string, listing: seq<Entry>)
    ensures WalkedFiles(Walk(top, listing)) == FileCount(listing)
    decreases listing, 1
  {
    WalkBelowFileCount(top, listing);
    WalkedFilesConcat([WalkStep(top, DirNames(listing), FileNames(listing))], WalkBelow(top, listing));
    FileNamesCount(listing);
  }

  lemma {:induction false} WalkBelowFileCount(top: string, listing: seq<Entry>)
    ensures WalkedFiles(WalkBelow(top, listing)) == WalkBelowCount(listing)
    decreases listing, 0
  {
    if listing != [] {
      WalkBelowFileCount(top, listing[1..]);
      match listing[0]
      case File(_) =>
        assert WalkBelow(top, listing) == WalkBelow(top, listing[1..]);
      case Dir(name, children) =>
        WalkFileCount(Join(top, name), children);
        WalkedFilesConcat(Walk(Join(top, name), children), WalkBelow(top, listing[1..]));
    }
  }

  /** `[os.path.join(dir, f) for f in filenames]`. */
  function JoinAll(dir: string, filenames: seq<string>): (r: seq<string>)
    ensures |r| == |filenames|
  {
    seq(|filenames|, i requires 0 <= i < |filenames| => Join(dir, filenames[i]))
  }

  /** Each joined path ends in its file's name. */
  lemma JoinAllNames(dir: string, filenames: seq<string>)
    requires forall i :: 0 <= i < |filenames| ==> '/' !in filenames[i]
    ensures forall i :: 0 <= i < |filenames| ==> Basename(JoinAll(dir, filenames)[i]) == filenames[i]
  {
    forall i | 0 <= i < |filenames|
      ensures Basename(JoinAll(dir, filenames)[i]) == filenames[i]
    {
      BasenameOfJoin(dir, filenames[i]);
    }
  }

  /** `get_filepath_list` of make_json_dtb_file.py: every file of every walk
      step, joined to that step's directory path, in walk order. */
  function FilepathList(steps: seq<WalkStep>): seq<string> {
    if steps == [] then []
    else
      var last := steps[|steps| - 1];
      FilepathList(steps[..|steps| - 1]) + JoinAll(last.dirpath, last.filenames)
  }

  /** `get_filepath_list` of repository_handling.py: the same, except that every
      occurrence of `rootPath` is first removed from the directory path. */
  function RootlessFilepathList(steps: seq<WalkStep>, rootPath: string): seq<string> {
    if steps == [] then []
    else
      var last := steps[|steps| - 1];
      RootlessFilepathList(steps[..|steps| - 1], rootPath) + JoinAll(Replace(last.dirpath, rootPath, ""), last.filenames)
  }

  /** The loop of the make_json_dtb_file.py variant. */
  method GetFilepathList(steps: seq<WalkStep>) returns (filepaths: seq<string>)
    ensures filepaths == FilepathList(steps)
  {
    filepaths := [];
    var i := 0;
    while i < |steps|
      invariant 0 <= i <= |steps|
      invariant filepaths == FilepathList(steps[..i])
    {
      assert steps[..i + 1][..i] == steps[..i];
      var step := steps[i];
      var j := 0;
      while j < |step.filenames|
        invariant 0 <= j <= |step.filenames|
        invariant filepaths == FilepathList(steps[..i]) + JoinAll(step.dirpath, step.filenames[..j])
      {
        assert JoinAll(step.dirpath, step.filenames[..j + 1]) == JoinAll(step.dirpath, step.filenames[..j]) + [Join(step.dirpath, step.filenames[j])];
        filepaths := filepaths + [Join(step.dirpath, step.filenames[j])];
        j := j + 1;
      }
      assert step.filenames[..j] == step.filenames;
      i := i + 1;
    }
    assert steps[..i] == steps;
  }

  /** The loop of the repository_handling.py variant. */
  method GetRootlessFilepathList(steps: seq<WalkStep>, rootPath: string) returns (filepaths: seq<string>)
    ensures filepaths == RootlessFilepathList(steps, rootPath)
  {
    filepaths := [];
    var i := 0;
    while i < |steps|
      invariant 0 <= i <= |steps|
      invariant filepaths == RootlessFilepathList(steps[..i], rootPath)
    {
      assert steps[..i + 1][..i] == steps[..i];
      var step := steps[i];
      var dirpath := Replace(step.dirpath, rootPath, "");
      var j := 0;
      while j < |step.filenames|
        invariant 0 <= j <= |step.filenames|
        invariant filepaths == RootlessFilepathList(steps[..i], rootPath) + JoinAll(dirpath, step.filenames[..j])
      {
        assert JoinAll(dirpath, step.filenames[..j + 1]) == JoinAll(dirpath, step.filenames[..j]) + [Join(dirpath, step.filenames[j])];
        filepaths := filepaths + [Join(dirpath, step.filenames[j])];
        j := j + 1;
      }
      assert step.filenames[..j] == step.filenames;
      i := i + 1;
    }
    assert steps[..i] == steps;
  }

  /** Both variants emit one path per walked file name. */
  lemma {:induction false} FilepathListLength(steps: seq<WalkStep>, rootPath: string)
    ensures |FilepathList(steps)| == WalkedFiles(steps)
    ensures |RootlessFilepathList(steps, rootPath)| == WalkedFiles(steps)
  {
    if steps != [] {
      var n := |steps| - 1;
      FilepathListLength(steps[..n], rootPath);
      assert steps == steps[..n] + [steps[n]];
      WalkedFilesConcat(steps[..n], [steps[n]]);
    }
  }

  /** So over a walk of a directory tree both variants list every file once. */
  lemma FilepathListOfWalk(top: string, listing: seq<Entry>)
    ensures |FilepathList(Walk(top, listing))| == FileCount(listing)
    ensures |RootlessFilepathList(Walk(top, listing), top)| == FileCount(listing)
  {
    FilepathListLength(Walk(top, listing), top);
    WalkFileCount(top, listing);
  }

  /** The root is removed wherever it occurs, not only as a prefix: in the
      walk of `a`, the file `x` of the subdirectory `a/a` is listed as `/x`
      (removing the prefix alone would give `/a/x`). */
  lemma RootRemovedEverywhere()
    ensures RootlessFilepathList([WalkStep("a/a", [], ["x"])], "a") == ["/x"]
  {
    assert Replace("a", "a", "") == "" by {
      assert StartsWith("a", "a") && "a"[1..] == "";
    }
    assert Replace("/a", "a", "") == "/" by {
      assert "/a"[..1] == "/" && "/a"[1..] == "a";
    }
    assert Replace("a/a", "a", "") == "/" by {
      assert StartsWith("a/a", "a") && "a/a"[1..] == "/a";
    }
    assert Join("/", "x") == "/x" by {
      assert "x"[..1] == "x" && "/"[0..] == "/";
    }
    var steps := [WalkStep("a/a", [], ["x"])];
    assert steps[..0] == [];
  }
}
