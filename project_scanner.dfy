/** The per-project selection rules shared by make_json_dtb_file.py and
    repository_handling.py (the two files carry identical copies): which entry
    of a project directory is the DAW project file, the stems directory, the
    thumbnail, the stereo mixdown, the video and the score. Every rule reads
    one listing of the project directory, in `os.listdir` order. */
module ProjectScanner {
  import opened Wrappers
  import opened Seqs
  import opened PyStr
  import opened PyPath
  import opened PyErrors
  import opened FileSystem
  import opened FileLists

  /** `get_project_root`: the last component of the project path. */
  function ProjectRoot(prjPath: string): (r: string)
    ensures '/' !in r && EndsWith(prjPath, r)
    ensures '/' !in prjPath ==> r == prjPath
  {
    Basename(prjPath)
  }

  // ------------------------------------------------------------ project file

  /** Whether a name, lowercased, ends with one of the registry extensions. */
  predicate IsProjectFile(name: string, extensions: seq<string>) {
    exists k :: 0 <= k < |extensions| && EndsWith(Lower(name), extensions[k])
  }

  /** `get_project_name`: the first entry, in listing order, whose lowercased
      name ends with any extension, with its original case; `""` if none does.
      Directories are listed too, so a directory can be chosen. */
  function ProjectName(listing: seq<Entry>, extensions: seq<string>): (r: string)
    ensures (forall i :: 0 <= i < |listing| ==> !IsProjectFile(listing[i].name, extensions)) ==> r == ""
    ensures forall i :: 0 <= i < |listing| && IsProjectFile(listing[i].name, extensions) &&
                        (forall j :: 0 <= j < i ==> !IsProjectFile(listing[j].name, extensions))
                        ==> r == listing[i].name
  {
    match FirstIndex(listing, (e: Entry) => IsProjectFile(e.name, extensions))
    case None => ""
    case Some(i) => listing[i].name
  }

  /** The two nested loops of `get_project_name`. */
  method GetProjectName(listing: seq<Entry>, extensions: seq<string>) returns (r: string)
    ensures r == ProjectName(listing, extensions)
  {
    var i := 0;
    while i < |listing|
      invariant 0 <= i <= |listing|
      invariant forall j :: 0 <= j < i ==> !IsProjectFile(listing[j].name, extensions)
    {
      var filenameLower := Lower(listing[i].name);
      var k := 0;
      while k < |extensions|
        invariant 0 <= k <= |extensions|
        invariant forall m :: 0 <= m < k ==> !EndsWith(filenameLower, extensions[m])
      {
        if EndsWith(filenameLower, extensions[k]) {
          return listing[i].name;
        }
        k := k + 1;
      }
      i := i + 1;
    }
    return "";
  }

  /** `get_project_name` with the extensions read from the registry, which
      raises when the registry has no header row. */
  function ProjectNameFromRegistry(listing: seq<Entry>, csvRows: seq<seq<string>>): Result<string, PyError> {
    var extensions :- AllDawExtensions(csvRows);
    Success(ProjectName(listing, extensions))
  }

  /** An empty registry cell is a suffix of every name, so it makes the first
      entry of any non-empty listing the project file. */
  lemma EmptyExtensionSelectsFirst(listing: seq<Entry>, extensions: seq<string>)
    requires "" in extensions && listing != []
    ensures ProjectName(listing, extensions) == listing[0].name
  {
    var k :| 0 <= k < |extensions| && extensions[k] == "";
    assert EndsWith(Lower(listing[0].name), extensions[k]);
  }

  // ------------------------------------------------------------------ stems

  /** Whether an entry is a directory whose lowercased name is one of `subdirNames`. */
  predicate IsStemsDir(e: Entry, subdirNames: seq<string>) {
    e.Dir? && Lower(e.name) in subdirNames
  }

  /** `get_stems`: the name of the first directory whose lowercased name is in
      `subdirNames`; files with such names are passed over; `""` if none. */
  function Stems(listing: seq<Entry>, subdirNames: seq<string>): (r: string)
    ensures (forall i :: 0 <= i < |listing| ==> !IsStemsDir(listing[i], subdirNames)) ==> r == ""
    ensures forall i :: 0 <= i < |listing| && IsStemsDir(listing[i], subdirNames) &&
                        (forall j :: 0 <= j < i ==> !IsStemsDir(listing[j], subdirNames))
                        ==> r == listing[i].name
  {
    match FirstIndex(listing, (e: Entry) => IsStemsDir(e, subdirNames))
    case None => ""
    case Some(i) => listing[i].name
  }

  /** The loop of `get_stems`. */
  method GetStems(listing: seq<Entry>, subdirNames: seq<string>) returns (r: string)
    ensures r == Stems(listing, subdirNames)
  {
    var i := 0;
    while i < |listing|
      invariant 0 <= i <= |listing|
      invariant forall j :: 0 <= j < i ==> !IsStemsDir(listing[j], subdirNames)
    {
      if listing[i].Dir? {
        if Lower(listing[i].name) in subdirNames {
          return listing[i].name;
        }
      }
      i := i + 1;
    }
    return "";
  }

  /** The names `update_or_create_json_file` asks for. */
  const StemsDirNames: seq<string> := ["stems", "render"]

  /** A file called `Stems` is never the stems directory; a directory `STEMS` is. */
  lemma StemsExample()
    ensures Stems([File("Stems"), Dir("STEMS", [])], StemsDirNames) == "STEMS"
  {
    assert Lower("STEMS") == "stems";
    assert IsStemsDir(Dir("STEMS", []), StemsDirNames);
  }

  // -------------------------------------------------------------- thumbnail

  /** The image files of a listing (`isfile` and `imghdr.what(...) is not None`),
      in listing order; the image test is a parameter. */
  function Images(listing: seq<Entry>, isImage: string -> bool): (r: seq<string>)
    ensures forall f :: f in r <==> f in FileNames(listing) && isImage(f)
  {
    Filter(FileNames(listing), isImage)
  }

  predicate IsThumbnailName(f: string) {
    Contains(Lower(f), "thumbnail")
  }

  /** `get_project_thumbnail`: the first image whose lowercased name contains
      `thumbnail`, else the first image, else `""`. */
  function Thumbnail(listing: seq<Entry>, isImage: string -> bool): (r: string)
    ensures var images := Images(listing, isImage);
      forall i :: 0 <= i < |images| && IsThumbnailName(images[i]) &&
                  (forall j :: 0 <= j < i ==> !IsThumbnailName(images[j]))
                  ==> r == images[i]
    ensures var images := Images(listing, isImage);
      images != [] && (forall i :: 0 <= i < |images| ==> !IsThumbnailName(images[i])) ==> r == images[0]
    ensures Images(listing, isImage) == [] ==> r == ""
    ensures r == "" || (r in FileNames(listing) && isImage(r))
  {
    var images := Images(listing, isImage);
    var thumbnails := Filter(images, IsThumbnailName);
    forall i | 0 <= i < |images| && IsThumbnailName(images[i]) && (forall j :: 0 <= j < i ==> !IsThumbnailName(images[j]))
      ensures thumbnails != [] && thumbnails[0] == images[i]
    {
      FilterFirst(images, IsThumbnailName, i);
    }
    if thumbnails != [] then
      assert thumbnails[0] in thumbnails;
      thumbnails[0]
    else if images != [] then
      assert images[0] in images;
      images[0]
    else ""
  }

  // ---------------------------------------------------------- keyword search

  /** `any(keyword in name.lower() for keyword in keywords)`. */
  predicate HasKeyword(name: string, keywords: seq<string>) {
    exists k :: 0 <= k < |keywords| && Contains(Lower(name), keywords[k])
  }

  /** The first name that carries one of the keywords. */
  function KeywordMatch(names: seq<string>, keywords: seq<string>): (r: Option<nat>)
    ensures r.None? <==> forall i :: 0 <= i < |names| ==> !HasKeyword(names[i], keywords)
    ensures r.Some? ==> r.value < |names| && HasKeyword(names[r.value], keywords) &&
                        forall j :: 0 <= j < r.value ==> !HasKeyword(names[j], keywords)
  {
    FirstIndex(names, (name: string) => HasKeyword(name, keywords))
  }

  /** The early-return loop of `get_stereo_mix` and `get_video_file_with_keywords`. */
  method FindKeywordMatch(names: seq<string>, keywords: seq<string>) returns (r: Option<nat>)
    ensures r == KeywordMatch(names, keywords)
  {
    var i := 0;
    while i < |names|
      invariant 0 <= i <= |names|
      invariant forall j :: 0 <= j < i ==> !HasKeyword(names[j], keywords)
    {
      var lower := Lower(names[i]);
      var k := 0;
      while k < |keywords|
        invariant 0 <= k <= |keywords|
        invariant forall m :: 0 <= m < k ==> !Contains(lower, keywords[m])
      {
        if Contains(lower, keywords[k]) {
          return Some(i);
        }
        k := k + 1;
      }
      i := i + 1;
    }
    return None;
  }

  // ------------------------------------------------------------ stereo mix

  /** The keyword set of `get_stereo_mix`: three fixed ones plus the caller's,
      which are not lowercased. */
  function MixKeywords(extraKeywords: seq<string>): seq<string> {
    ["mix", "stereo", "render"] + extraKeywords
  }

  /** The first name that carries a keyword, or `""`. */
  function FirstWithKeyword(names: seq<string>, keywords: seq<string>): (r: string)
    ensures forall i :: 0 <= i < |names| && HasKeyword(names[i], keywords) &&
                        (forall j :: 0 <= j < i ==> !HasKeyword(names[j], keywords))
                        ==> r == names[i]
    ensures (forall i :: 0 <= i < |names| ==> !HasKeyword(names[i], keywords)) ==> r == ""
    ensures r == "" || r in names
  {
    match KeywordMatch(names, keywords)
    case None => ""
    case Some(i) => names[i]
  }

  /** `get_stereo_mix`: the first audio file whose lowercased name contains a keyword, or `""`. */
  function StereoMix(listing: seq<Entry>, extraKeywords: seq<string>): string {
    FirstWithKeyword(AudioFiles(listing), MixKeywords(extraKeywords))
  }

  /** `get_stereo_mix` with its loop. */
  method GetStereoMix(listing: seq<Entry>, extraKeywords: seq<string>) returns (r: string)
    ensures r == StereoMix(listing, extraKeywords)
  {
    var audio := AudioFiles(listing);
    var m := FindKeywordMatch(audio, MixKeywords(extraKeywords));
    r := if m.Some? then audio[m.value] else "";
  }

  /** The extra keywords of line 252: the project root and the project file
      name up to its first dot. */
  function StereoKeywords(root: string, projectFilename: string): seq<string> {
    [root, SplitChar(projectFilename, '.')[0]]
  }

  /** With no project file (`""`) or one whose name starts with a dot, the
      second extra keyword is empty. */
  lemma StereoKeywordEmpty(root: string, projectFilename: string)
    requires projectFilename == "" || projectFilename[0] == '.'
    ensures StereoKeywords(root, projectFilename)[1] == ""
  {
    if projectFilename != "" {
      SplitCharFirst("", projectFilename[1..], '.');
      assert "" + ['.'] + projectFilename[1..] == projectFilename;
    }
  }

  /** An empty keyword is contained in every name, so the first name is taken. */
  lemma EmptyKeywordTakesFirst(names: seq<string>, keywords: seq<string>)
    requires "" in keywords && names != []
    ensures FirstWithKeyword(names, keywords) == names[0]
  {
    var k :| 0 <= k < |keywords| && keywords[k] == "";
    assert StartsWith(Lower(names[0])[0..], keywords[k]);
    assert HasKeyword(names[0], keywords);
  }

  /** So an empty extra keyword makes the first audio file the stereo mixdown. */
  lemma EmptyKeywordTakesFirstAudio(listing: seq<Entry>, extraKeywords: seq<string>)
    requires "" in extraKeywords && AudioFiles(listing) != []
    ensures StereoMix(listing, extraKeywords) == AudioFiles(listing)[0]
  {
    assert "" in MixKeywords(extraKeywords);
    EmptyKeywordTakesFirst(AudioFiles(listing), MixKeywords(extraKeywords));
  }

  // ------------------------------------------------------------ video, score

  /** What `get_video_file_with_keywords` and `get_score_file` return: one
      name, or the list of all candidates. */
  datatype AssetRef = Single(name: string) | Many(names: seq<string>)

  /** The link read from `video.url`: `"http"` followed by the text between
      the first and the second `http` of the stripped content. */
  function VideoUrl(content: string): Result<string, PyError> {
    var pieces := SplitOn(Strip(content), "http");
    if |pieces| < 2 then Failure(IndexError) else Success("http" + pieces[1])
  }

  /** `get_video_file_with_keywords`: a keyword match first, then the single
      video, then all videos, then the link in `video.url` (`urlContent` is
      that file's text, `None` when there is no such file), then `""`. */
  function VideoFile(listing: seq<Entry>, keywords: seq<string>, urlContent: Option<string>): (r: Result<AssetRef, PyError>)
    ensures var videos := VideoFiles(listing);
      KeywordMatch(videos, keywords).None? && |videos| > 1 ==> r == Success(Many(videos))
    ensures var videos := VideoFiles(listing);
      |videos| == 1 ==> r == Success(Single(videos[0]))
    ensures r.Failure? ==> r.error == IndexError && VideoFiles(listing) == [] && urlContent.Some?
    ensures VideoFiles(listing) == [] && urlContent.None? ==> r == Success(Single(""))
    ensures VideoFiles(listing) == [] && urlContent.Some? && VideoUrl(urlContent.value).Success? ==>
              r == Success(Single(VideoUrl(urlContent.value).value))
    ensures var videos := VideoFiles(listing);
      forall i :: 0 <= i < |videos| && HasKeyword(videos[i], keywords) &&
                  (forall j :: 0 <= j < i ==> !HasKeyword(videos[j], keywords))
                  ==> r == Success(Single(videos[i]))
    ensures VideoFiles(listing) == [] && urlContent.Some? ==>
              (r.Failure? <==> !Contains(Strip(urlContent.value), "http"))
  {
    var videos := VideoFiles(listing);
    match KeywordMatch(videos, keywords)
    case Some(i) => Success(Single(videos[i]))
    case None =>
      if |videos| == 1 then Success(Single(videos[0]))
      else if |videos| > 1 then Success(Many(videos))
      else
        match urlContent
        case None => Success(Single(""))
        case Some(content) =>
          VideoUrlShape(content);
          var url :- VideoUrl(content);
          if url != "" then Success(Single(url)) else Success(Single(""))
  }

  /** The call of `update_or_create_json_file` passes no keywords: the default
      `""` has no characters to iterate over. */
  const DefaultVideoKeywords: seq<string> := []

  /** With the default keywords, several videos are all returned, in listing order. */
  lemma DefaultKeywordsNeverMatch(names: seq<string>)
    ensures KeywordMatch(names, DefaultVideoKeywords).None?
  {
    assert forall i :: 0 <= i < |names| ==> !HasKeyword(names[i], DefaultVideoKeywords);
  }

  /** The link branch: it fails exactly when the stripped content has no
      `http`, and otherwise yields text starting with `http`, so the emptiness
      test after it never rejects it. */
  lemma VideoUrlShape(content: string)
    ensures VideoUrl(content).Failure? <==> !Contains(Strip(content), "http")
    ensures VideoUrl(content).Success? ==> StartsWith(VideoUrl(content).value, "http")
  {
  }

  /** The link is the text between the first and the second `http` (or up to
      the end when there is no second one), as a direct search finds it. */
  lemma VideoUrlBetween(content: string)
    requires Contains(Strip(content), "http")
    ensures var t := Strip(content);
      var start := FindSub(t, "http").value + 4;
      var rest := t[start..];
      VideoUrl(content) == Success("http" + (match FindSub(rest, "http")
                                             case None => rest
                                             case Some(m) => rest[..m]))
  {
    var t := Strip(content);
    var k := FindSub(t, "http").value;
    assert SplitOn(t, "http") == [t[..k]] + SplitOn(t[k + 4..], "http");
    var rest := t[k + 4..];
    match FindSub(rest, "http")
    case None =>
      assert SplitOn(rest, "http") == [rest];
    case Some(m) =>
      assert SplitOn(rest, "http")[0] == rest[..m];
  }

  /** `get_score_file`: the list when there are several score files, the name
      when there is one, `""` when there is none. */
  function ScoreFile(listing: seq<Entry>): (r: AssetRef)
    ensures |ScoreFiles(listing)| > 1 <==> r.Many?
    ensures r.Many? ==> r.names == ScoreFiles(listing)
    ensures |ScoreFiles(listing)| == 1 ==> r == Single(ScoreFiles(listing)[0])
    ensures ScoreFiles(listing) == [] ==> r == Single("")
  {
    var scores := ScoreFiles(listing);
    if |scores| > 1 then Many(scores)
    else if |scores| == 1 then Single(scores[0])
    else Single("")
  }

  // --------------------------------------------------------- relative path

  /** `get_relative_path` of make_json_dtb_file.py: `relpath` is the result of
      `os.path.relpath`, `None` when it raises `ValueError`. */
  function RelativePath(prjPath: string, relpath: Option<string>): (r: string)
    ensures relpath.Some? ==> r == relpath.value
    ensures relpath.None? ==> r == prjPath
  {
    relpath.GetOr(prjPath)
  }

  /** `get_relative_path` of repository_handling.py: the same, with every
      backslash turned into a slash on both branches. */
  function NormalisedRelativePath(prjPath: string, relpath: Option<string>): (r: string)
    ensures '\\' !in r
    ensures var p := RelativePath(prjPath, relpath);
      |r| == |p| && forall i :: 0 <= i < |p| ==> r[i] == (if p[i] == '\\' then '/' else p[i])
  {
    ReplaceCharRemoves(RelativePath(prjPath, relpath), '\\', "/");
    ReplaceCharByChar(RelativePath(prjPath, relpath), '\\', '/');
    Replace(RelativePath(prjPath, relpath), "\\", "/")
  }
}
