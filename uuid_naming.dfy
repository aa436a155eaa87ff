/** The database file name of a project and the recovery of its UUID from an
    earlier run (make_json_dtb_file.py lines 203-227 and 267, and the copy of
    `find_existing_uuid` in repository_handling.py). */
module UuidNaming {
  import opened Wrappers
  import opened Seqs
  import opened PyStr
  import opened PyPath
  import opened PyErrors
  import opened FileSystem

  // ------------------------------------------------------------------ glob

  predicate IsGlobChar(c: char) {
    c == '*' || c == '?' || c == '['
  }

  /** Text in which `fnmatch` sees no metacharacter. */
  predicate GlobFree(s: string) {
    forall i :: 0 <= i < |s| ==> !IsGlobChar(s[i])
  }

  /** `fnmatch.fnmatch(name, pattern)` on a POSIX system (case-sensitive):
      `*` matches any text, `?` any one character, every other character
      itself. */
  function Match(name: string, pattern: string): bool
    decreases |name| + |pattern|
  {
    if pattern == [] then name == []
    else if pattern[0] == '*' then Match(name, pattern[1..]) || (name != [] && Match(name[1..], pattern))
    else name != [] && (pattern[0] == '?' || pattern[0] == name[0]) && Match(name[1..], pattern[1..])
  }

  /** A pattern without metacharacters matches only itself. */
  lemma {:induction false} MatchLiteral(name: string, literal: string)
    requires GlobFree(literal)
    ensures Match(name, literal) <==> name == literal
    decreases |literal|
  {
    if literal != [] {
      assert forall i :: 0 <= i < |literal| - 1 ==> literal[1..][i] == literal[i + 1];
      if name != [] {
        MatchLiteral(name[1..], literal[1..]);
        if name[1..] == literal[1..] && name[0] == literal[0] {
          assert name == [name[0]] + name[1..];
          assert literal == [literal[0]] + literal[1..];
        }
      }
    }
  }

  /** A literal prefix must be matched character for character. */
  lemma {:induction false} MatchPrefix(name: string, prefix: string, rest: string)
    requires GlobFree(prefix)
    ensures Match(name, prefix + rest) <==> StartsWith(name, prefix) && Match(name[|prefix|..], rest)
    decreases |prefix|
  {
    if prefix == [] {
      assert prefix + rest == rest;
    } else {
      assert (prefix + rest)[0] == prefix[0];
      assert (prefix + rest)[1..] == prefix[1..] + rest;
      assert forall i :: 0 <= i < |prefix| - 1 ==> prefix[1..][i] == prefix[i + 1];
      if name != [] {
        MatchPrefix(name[1..], prefix[1..], rest);
        assert StartsWith(name, prefix) <==> name[0] == prefix[0] && StartsWith(name[1..], prefix[1..]) by {
          if |prefix| <= |name| {
            assert name[..|prefix|] == [name[0]] + name[1..][..|prefix| - 1];
            assert prefix == [prefix[0]] + prefix[1..];
          }
        }
        if StartsWith(name[1..], prefix[1..]) {
          assert name[1..][|prefix| - 1..] == name[|prefix|..];
        }
      }
    }
  }

  /** A star followed by a literal suffix matches exactly the names that end
      with the suffix. */
  lemma {:induction false} MatchStarSuffix(name: string, suffix: string)
    requires GlobFree(suffix)
    ensures Match(name, "*" + suffix) <==> EndsWith(name, suffix)
    decreases |name|
  {
    assert ("*" + suffix)[1..] == suffix;
    MatchLiteral(name, suffix);
    if name != [] {
      MatchStarSuffix(name[1..], suffix);
      if |suffix| <= |name| - 1 {
        assert name[1..][|name| - 1 - |suffix|..] == name[|name| - |suffix|..];
      }
      if EndsWith(name, suffix) && |suffix| == |name| {
        assert name[|name| - |suffix|..] == name;
      }
    } else {
      if EndsWith(name, suffix) {
        assert suffix == [];
      }
    }
  }

  /** `prefix*suffix` with literal ends: the name starts with the prefix, ends
      with the suffix, and the two do not overlap. */
  lemma MatchPrefixStarSuffix(name: string, prefix: string, suffix: string)
    requires GlobFree(prefix)
    requires GlobFree(suffix)
    ensures Match(name, prefix + "*" + suffix) <==>
              |prefix| + |suffix| <= |name| && StartsWith(name, prefix) && EndsWith(name, suffix)
  {
    var star := "*" + suffix;
    assert Match(name, prefix + "*" + suffix) <==> StartsWith(name, prefix) && Match(name[|prefix|..], star) by {
      assert prefix + "*" + suffix == prefix + star;
      MatchPrefix(name, prefix, star);
    }
    if StartsWith(name, prefix) {
      var tail := name[|prefix|..];
      assert Match(tail, star) <==> EndsWith(tail, suffix) by {
        MatchStarSuffix(tail, suffix);
      }
      EndsWithTail(name, |prefix|, suffix);
    }
  }

  /** A tail of a name ends with a suffix exactly when the name does and the
      suffix fits in the tail. */
  lemma EndsWithTail(name: string, k: nat, suffix: string)
    requires k <= |name|
    ensures EndsWith(name[k..], suffix) <==> k + |suffix| <= |name| && EndsWith(name, suffix)
  {
    if k + |suffix| <= |name| {
      assert name[k..][|name| - k - |suffix|..] == name[|name| - |suffix|..];
    }
  }

  // ------------------------------------------------------------- file names

  const Prefix: string := "DAW-REPO"
  const Extension: string := "json"

  /** `f'{prefix}.{rood_dir}.{UID}.{ext}'`. */
  function DatabaseFileName(root: string, uid: string): string {
    Prefix + "." + root + "." + uid + "." + Extension
  }

  /** `f'{prefix}.{rood_dir}.*.{ext}'`. */
  function UuidPattern(root: string): string {
    Prefix + "." + root + ".*." + Extension
  }

  /** The text of a database file name that sits between the pattern's fixed prefix and suffix. */
  function PatternPrefix(root: string): string {
    Prefix + "." + root + "."
  }

  /** The first entry whose name matches the pattern, in listing order. */
  function FirstMatching(listing: seq<Entry>, pattern: string): (r: Option<nat>)
    ensures r.None? <==> forall i :: 0 <= i < |listing| ==> !Match(listing[i].name, pattern)
    ensures r.Some? ==> r.value < |listing| && Match(listing[r.value].name, pattern) &&
                        forall j :: 0 <= j < r.value ==> !Match(listing[j].name, pattern)
  {
    FirstIndex(listing, (e: Entry) => Match(e.name, pattern))
  }

  /** `filename.split('.')[2]`, which raises when the name has fewer than two dots. */
  function ThirdField(name: string): Result<string, PyError> {
    var fields := SplitChar(name, '.');
    if |fields| < 3 then Failure(IndexError) else Success(fields[2])
  }

  /** `find_existing_uuid`: the third dot-separated field of the first entry
      that matches the pattern, or `None`. */
  function FindExistingUuid(listing: seq<Entry>, pattern: string): Result<Option<string>, PyError> {
    match FirstMatching(listing, pattern)
    case None => Success(None)
    case Some(i) =>
      var uid :- ThirdField(listing[i].name);
      Success(Some(uid))
  }

  /** The loop of `find_existing_uuid`. */
  method GetExistingUuid(listing: seq<Entry>, pattern: string) returns (r: Result<Option<string>, PyError>)
    ensures r == FindExistingUuid(listing, pattern)
  {
    var i := 0;
    while i < |listing|
      invariant 0 <= i <= |listing|
      invariant forall j :: 0 <= j < i ==> !Match(listing[j].name, pattern)
    {
      if Match(listing[i].name, pattern) {
        assert FirstMatching(listing, pattern) == Some(i);
        var fields := SplitChar(listing[i].name, '.');
        if |fields| < 3 {
          return Failure(IndexError);
        }
        return Success(Some(fields[2]));
      }
      i := i + 1;
    }
    assert FirstMatching(listing, pattern).None?;
    return Success(None);
  }

  /** Lines 223-226: `if not UID` replaces both `None` and `""` by a newUid UUID. */
  function ChooseUid(found: Option<string>, newUid: string): (uid: string)
    ensures found.Some? && found.value != "" ==> uid == found.value
    ensures found.None? || found.value == "" ==> uid == newUid
  {
    match found
    case Some(u) => if u != "" then u else newUid
    case None => newUid
  }

  /** The UUID a run of `update_or_create_json_file` settles on; `newUid` stands
      for `str(uuid.uuid4())`. */
  function ResolveUid(listing: seq<Entry>, root: string, newUid: string): Result<string, PyError> {
    var found :- FindExistingUuid(listing, UuidPattern(root));
    Success(ChooseUid(found, newUid))
  }

  /** The JSON written to the output directory (line 227) and the copy placed
      in the project directory (line 267). */
  function OutputFileName(outdir: string, root: string, uid: string): string {
    Join(outdir, DatabaseFileName(root, uid))
  }

  function ProjectCopyName(prjPath: string, root: string, uid: string): string {
    Join(prjPath, DatabaseFileName(root, uid))
  }

  /** The written file and its copy have the same base name. */
  lemma CopyHasSameName(outdir: string, prjPath: string, root: string, uid: string)
    requires '/' !in root && '/' !in uid
    ensures Basename(OutputFileName(outdir, root, uid)) == DatabaseFileName(root, uid)
    ensures Basename(ProjectCopyName(prjPath, root, uid)) == DatabaseFileName(root, uid)
  {
    assert '/' !in DatabaseFileName(root, uid) by {
      assert '/' !in Prefix;
    }
    BasenameOfJoin(outdir, DatabaseFileName(root, uid));
    BasenameOfJoin(prjPath, DatabaseFileName(root, uid));
  }

  /** A database file name matches the pattern built for its root whenever the
      root has no glob metacharacter. */
  lemma DatabaseNameMatches(root: string, uid: string)
    requires GlobFree(root)
    ensures Match(DatabaseFileName(root, uid), UuidPattern(root))
  {
    var prefix := PatternPrefix(root);
    var suffix := "." + Extension;
    assert GlobFree(prefix);
    assert GlobFree(suffix);
    assert UuidPattern(root) == prefix + "*" + suffix;
    var name := DatabaseFileName(root, uid);
    assert name == prefix + uid + suffix;
    assert name[..|prefix|] == prefix;
    assert name[|name| - |suffix|..] == suffix;
    MatchPrefixStarSuffix(name, prefix, suffix);
  }

  /** A dot-free root and UUID are the second and third dot-separated fields
      of the database file name. */
  lemma DatabaseNameFields(root: string, uid: string)
    requires '.' !in root && '.' !in uid
    ensures SplitChar(DatabaseFileName(root, uid), '.') == [Prefix, root, uid, Extension]
  {
    var tail := root + "." + uid + "." + Extension;
    assert SplitChar(tail, '.') == [root, uid, Extension] by {
      DatabaseNameFieldsTail(root, uid);
    }
    assert SplitChar(Prefix + "." + tail, '.') == [Prefix, root, uid, Extension] by {
      assert '.' !in Prefix;
      SplitCharFirst(Prefix, tail, '.');
    }
    assert DatabaseFileName(root, uid) == Prefix + "." + tail;
  }

  /** Round trip: a database file written for a dot-free, glob-free root with a
      dot-free, non-empty UUID is found again and yields that UUID, provided it
      is the first entry that matches the pattern. */
  lemma UidRoundTrip(listing: seq<Entry>, i: nat, root: string, uid: string, newUid: string)
    requires '.' !in root && GlobFree(root) && '.' !in uid && uid != ""
    requires i < |listing| && listing[i].name == DatabaseFileName(root, uid)
    requires forall j :: 0 <= j < i ==> !Match(listing[j].name, UuidPattern(root))
    ensures FindExistingUuid(listing, UuidPattern(root)) == Success(Some(uid))
    ensures ResolveUid(listing, root, newUid) == Success(uid)
  {
    DatabaseNameMatches(root, uid);
    DatabaseNameFields(root, uid);
    assert FirstMatching(listing, UuidPattern(root)) == Some(i);
  }

  /** A file left with an empty UUID field (`DAW-REPO.root..json`) is matched
      but its empty UUID is replaced by a newUid one. */
  lemma EmptyUidIsReplaced(listing: seq<Entry>, i: nat, root: string, newUid: string)
    requires '.' !in root && GlobFree(root)
    requires i < |listing| && listing[i].name == DatabaseFileName(root, "")
    requires forall j :: 0 <= j < i ==> !Match(listing[j].name, UuidPattern(root))
    ensures FindExistingUuid(listing, UuidPattern(root)) == Success(Some(""))
    ensures ResolveUid(listing, root, newUid) == Success(newUid)
  {
    DatabaseNameMatches(root, "");
    DatabaseNameFields(root, "");
    assert FirstMatching(listing, UuidPattern(root)) == Some(i);
  }

  /** A root with a dot shifts the fields: the recovered "UUID" is the part of
      the root after its first dot, so the stored UUID is lost and a new one is
      chosen on every run. */
  lemma DottedRootLosesUid(listing: seq<Entry>, i: nat, first: string, second: string, uid: string)
    requires '.' !in first && '.' !in second && '.' !in uid && GlobFree(first + "." + second)
    requires i < |listing| && listing[i].name == DatabaseFileName(first + "." + second, uid)
    requires forall j :: 0 <= j < i ==> !Match(listing[j].name, UuidPattern(first + "." + second))
    ensures FindExistingUuid(listing, UuidPattern(first + "." + second)) == Success(Some(second))
  {
    var root := first + "." + second;
    DatabaseNameMatches(root, uid);
    assert FirstMatching(listing, UuidPattern(root)) == Some(i);
    DottedRootFields(first, second, uid);
  }

  /** With a dotted root the name splits into five fields. */
  lemma DottedRootFields(first: string, second: string, uid: string)
    requires '.' !in first && '.' !in second && '.' !in uid
    ensures SplitChar(DatabaseFileName(first + "." + second, uid), '.') == [Prefix, first, second, uid, Extension]
  {
    var t := first + "." + second + "." + uid + "." + Extension;
    DottedRootFieldsTail(first, second, uid);
    assert '.' !in Prefix;
    SplitCharFirst(Prefix, t, '.');
    assert DatabaseFileName(first + "." + second, uid) == Prefix + "." + t;
  }

  lemma DottedRootFieldsTail(first: string, second: string, uid: string)
    requires '.' !in first && '.' !in second && '.' !in uid
    ensures SplitChar(first + "." + second + "." + uid + "." + Extension, '.') == [first, second, uid, Extension]
  {
    var t := second + "." + uid + "." + Extension;
    DatabaseNameFieldsTail(second, uid);
    SplitCharFirst(first, t, '.');
    assert first + "." + second + "." + uid + "." + Extension == first + "." + t;
  }

  /** The fields after the fixed prefix. */
  lemma DatabaseNameFieldsTail(root: string, uid: string)
    requires '.' !in root && '.' !in uid
    ensures SplitChar(root + "." + uid + "." + Extension, '.') == [root, uid, Extension]
  {
    var t1 := uid + "." + Extension;
    assert SplitChar(t1, '.') == [uid, Extension] by {
      assert '.' !in Extension;
      SplitCharFree(Extension, '.');
      SplitCharFirst(uid, Extension, '.');
    }
    SplitCharFirst(root, t1, '.');
    assert root + "." + uid + "." + Extension == root + "." + t1;
  }
}
