# DAW JSON info extractor — a Dafny model

The DAW JSON info extractor walks directories of music projects. It decides
which directories hold a project of a Digital Audio Workstation (DAW). For each
one it writes a JSON database file named `DAW-REPO.<root>.<uuid>.json` that
records:

- the project file and the DAW information extracted from it;
- the stems folder, thumbnail, stereo mixdown, video and score;
- three renderings of the directory tree.

This project models the rules that decide all of this. The filesystem is data:
a directory listing is a `seq<Entry>`, where an `Entry` is a `File(name)` or a
`Dir(name, children)`, in `os.listdir` order. What the program reads from disk
is an input:

- the CSV registry rows;
- the decoded plist;
- the parsed XML tree;
- the content of `video.url`;
- the answer of `imghdr.what`;
- whether each optional module can be imported.

Python exceptions are `Failure` values of a `Result`.

Modules:

- `Wrappers`, `Seqs`, `PyErrors`: `Option`/`Result`, order-preserving filters and
  first-match searches, and the exceptions the code can raise.
- `PyStr`, `PyPath`: the parts of `str` and `posixpath` the program relies on:
  - `lower`, `endswith`, `in`, `split` on a character and on a text, `replace`, `strip`;
  - `basename`, `splitext` (the last dot of the final component, leading dots ignored), `join`.
- `FileSystem`: listings, their file names and the file count of a tree.
- `Plist`, `XmlTree`: the decoded plist and `ElementTree` documents, with the
  lookups the extractors perform (`[]`, `.get`, `find`, `findall`).
- `FileLists`: get_file_lists_by_type_module.py. It covers the audio, video and
  score extension tables and their filters, and the flattening of the DAW
  registry into one extension list.
- `DawFileProcessor`: daw_file_processor.py. It covers:
  - the registry lookup of `get_daw_name`;
  - the if/elif dispatch of `get_daw_project_info`, including its twenty branches to functions that are never defined;
  - the extension guard and import check of every extractor;
  - the hard-wired Reaper answer;
  - the field projection of the Logic Pro X, Cubase and FL Studio extractors.
- `ProjectScanner`: the selection rules that make_json_dtb_file.py and
  repository_handling.py share (project name, stems, thumbnail, stereo mix,
  video, score), and both versions of `get_relative_path`.
- `UuidNaming`: the database file name, `fnmatch` of the recovery pattern,
  `find_existing_uuid`, and the choice between the recovered and a new UUID.
- `ProjectDirectories`: `read_daw_info`, `check_for_project_directory` and
  `locate_project_directories`.
- `DirectoryTrees`: the dictionary and list forms of the directory tree, `os.walk`,
  and both versions of `get_filepath_list`.

Every loop of a modelled function is a `method` whose `ensures` ties its
result to a specification function, and the properties are lemmas about those
functions. The loops inside the Pro Tools, Ableton Live and Reaper SDK code and
those of the `__main__` block are not modelled (see "Left out").

Where the two copies of a function in make_json_dtb_file.py and
repository_handling.py are identical, the model has one member, and the table
cites one copy. The two functions that differ (`get_filepath_list` and
`get_relative_path`) are modelled once per version.

## Model

| member | source | states |
|---|---|---|
| PyStr.SplitCharJoin | daw_file_processor.py:15 | `split(',')` loses nothing: joining the pieces with `,` gives back the cell, and no piece contains `,` |
| PyStr.SplitOn | make_json_dtb_file.py:175 | `split("http")` yields at least one piece, and exactly one precisely when the text has no `http` |
| PyStr.ReplaceCharRemoves | repository_handling.py:90 | replacing a character by text without it leaves no occurrence of that character |
| PyStr.ReplaceCharByChar | repository_handling.py:90 | replacing one character by another keeps the length and changes exactly the positions that held it |
| PyStr.LStrip | make_json_dtb_file.py:174 | the result is a suffix of the text, everything cut off is whitespace, and it does not start with whitespace |
| PyStr.RStrip | make_json_dtb_file.py:174 | the result is a prefix of the text, everything cut off is whitespace, and it does not end with whitespace |
| PyPath.Basename | make_json_dtb_file.py:30-33 | `basename` is a slash-free suffix of the path, and the whole path when it has no slash |
| PyPath.BasenameOfChild | make_json_dtb_file.py:316 | the basename of `dir/name` is `name` for any slash-free name |
| PyPath.BasenameOfJoin | make_json_dtb_file.py:227 | `basename(join(a, b))` is `b` for any slash-free `b` |
| PyPath.ExtShape | daw_file_processor.py:11 | the extension is a suffix of the final component: empty, or one dot followed by dot-free, slash-free text shorter than that component |
| PyPath.SplitExtRoundTrip | make_json_dtb_file.py:299 | `splitext` is a cut: root + extension is the path |
| PyPath.ExtOfChild | daw_file_processor.py:11 | the extension depends only on the last path component |
| PyPath.ExtAt | daw_file_processor.py:11 | for a slash-free name whose last dot is at `j`, the extension starts at `j` unless only dots precede that dot |
| PyPath.ExtUpperCase | get_file_lists_by_type_module.py:36 | `splitext` keeps case: `SONG.WAV` has extension `.WAV` |
| PyPath.ExtDotfile | get_file_lists_by_type_module.py:36 | the dotfile `.wav` has no extension |
| PyPath.ExtLastDot | daw_file_processor.py:11 | only the last dot counts: `take.2.mp3` has extension `.mp3` |
| PyPath.ExtTrailingSlash | daw_file_processor.py:11 | a path ending in `/` has no extension |
| FileSystem.FileNames | make_json_dtb_file.py:65-69 | a name is among the file names of a listing exactly when some entry is a file with that name |
| FileLists.FilesWithExtension | get_file_lists_by_type_module.py:36 | a name is in the list exactly when it is in the listing and its lowercased extension is in the table |
| FileLists.FilesWithExtensionOrder | get_file_lists_by_type_module.py:36 | the filter distributes over concatenation of listings, so listing order is kept |
| FileLists.FilesWithExtensionSingle | get_file_lists_by_type_module.py:36 | a single entry survives exactly when its lowercased extension is in the table |
| FileLists.AudioFiles | get_file_lists_by_type_module.py:32-39 | the audio files are the listing names whose lowercased extension is one of the ten audio extensions |
| FileLists.VideoFiles | get_file_lists_by_type_module.py:55-62 | the same with the ten video extensions |
| FileLists.ScoreFiles | get_file_lists_by_type_module.py:79-86 | the same with the nine score extensions |
| FileLists.AudioCaseAndDotfile | get_file_lists_by_type_module.py:36 | of `SONG.WAV` and `.wav`, only `SONG.WAV` is an audio file |
| FileLists.TablesDisjoint | get_file_lists_by_type_module.py:32-79 | no extension is in two tables, so no name is in two of the lists |
| FileLists.DataColumnsConcat | get_file_lists_by_type_module.py:12-13 | the flattened columns of two row blocks are the concatenation of each block's |
| FileLists.DataColumnsMembership | get_file_lists_by_type_module.py:12-13 | a value is in the flattened list exactly when it is a cell after the first column of some data row |
| FileLists.AllDawExtensions | get_file_lists_by_type_module.py:4-17 | `get_all_DAW_extensions`: `StopIteration` without a header row, else the flattened data columns; its meaning is stated by `DataColumnsMembership` and `DataColumnsConcat` |
| FileLists.GetAllDawExtensions | get_file_lists_by_type_module.py:4-17 | the loop result is `StopIteration` for an empty file, else every data row's columns after the first, in row order |
| DawFileProcessor.FirstMatch | daw_file_processor.py:14-17 | `None` exactly when no row's comma-split extension cell contains the extension, else the index of the first row that does |
| DawFileProcessor.NameFor | daw_file_processor.py:14-20 | the name of the first matching row, or `Unknown` when none matches |
| DawFileProcessor.FindDawName | daw_file_processor.py:12-20 | the loop with its early return computes `NameFor` |
| DawFileProcessor.GetDawName | daw_file_processor.py:4-21 | `get_daw_name` looks up the lowercased `splitext` extension of the path |
| DawFileProcessor.EmptyExtensionIsUnknown | daw_file_processor.py:11-20 | an empty extension gives `Unknown` unless some cell has an empty comma piece |
| DawFileProcessor.ReaperInfo | daw_file_processor.py:89-102 | Reaper answers `{}` unless the path ends in `.rpp` (any case) and `reapy` imports; then it answers exactly the fixed note |
| DawFileProcessor.ProToolsInfo | daw_file_processor.py:135-171 | `get_pro_tools_info`: `{}` without the `.ptx` suffix or `aaf2`, else the SDK's result (see `GuardsGiveNoInfo`) |
| DawFileProcessor.AbletonLiveInfo | daw_file_processor.py:216-258 | `get_ableton_live_info`: `{}` without the `.als` suffix or `ableton`, else the SDK's result (see `GuardsGiveNoInfo`) |
| DawFileProcessor.LogicProXInfo | daw_file_processor.py:299-327 | `get_logic_pro_x_info`: its guards, its `KeyError`/`IndexError` cases and its result are stated by `GuardsGiveNoInfo`, `LogicProXMissingKey`, `LogicProXShortSignature`, `LogicProXNeverEmpty` and `LogicProXSuccess` |
| DawFileProcessor.CubaseInfo | daw_file_processor.py:331-362 | `get_cubase_info`: its guards, its missing-node error and its result are stated by `GuardsGiveNoInfo`, `CubaseMissingTempo` and `CubaseSuccess` |
| DawFileProcessor.FLStudioInfo | daw_file_processor.py:366-396 | `get_fl_studio_info`: its guards, its tempo errors and its result are stated by `GuardsGiveNoInfo`, `FLStudioTempoErrors` and `FLStudioSuccess` |
| DawFileProcessor.CollectPlistMarkers | daw_file_processor.py:320-323 | the marker loop stops at the first marker missing `Name` or `Time`, else yields one marker per element in order |
| DawFileProcessor.CollectCubaseMarkers | daw_file_processor.py:355-358 | the marker loop stops at the first node without `Position`, else yields one marker per node in order |
| DawFileProcessor.CollectFlMarkers | daw_file_processor.py:389-392 | the FL Studio marker loop stops at the first channel without `pos`, else yields one marker per channel in order |
| DawFileProcessor.GuardsGiveNoInfo | daw_file_processor.py:135-377 | every extractor answers `{}` when the lowercased path lacks its extension or its module cannot be imported |
| DawFileProcessor.GuardIgnoresCase | daw_file_processor.py:301 | the guard lowercases the path: `Song.LOGICX` passes the `.logicx` guard |
| DawFileProcessor.LogicProXNeverEmpty | daw_file_processor.py:312-325 | past its guards the Logic Pro X extractor raises or returns the full record, never `{}` |
| DawFileProcessor.LogicProXMissingKey | daw_file_processor.py:316-317 | a missing `Tempo` raises `KeyError('Tempo')`; with `Tempo` present, a missing `NumericalTimeSignature` raises its `KeyError` |
| DawFileProcessor.LogicProXShortSignature | daw_file_processor.py:317 | a time signature list with fewer than two elements raises `IndexError` |
| DawFileProcessor.LogicProXSuccess | daw_file_processor.py:316-325 | a success holds the stored tempo, the first two signature elements joined by `/`, and one marker per `Markers` element in order, carrying its `Name` and `Time` |
| DawFileProcessor.CubaseMissingTempo | daw_file_processor.py:349-350 | with no `Tempo` node flagged `UseMusicalTimeBase='true'` the Cubase extractor raises |
| DawFileProcessor.CubaseSuccess | daw_file_processor.py:349-360 | a success reads the first flagged tempo and time-signature nodes and has one marker per flagged `Marker` node in document order |
| DawFileProcessor.FLStudioTempoErrors | daw_file_processor.py:384 | a missing `MasterTrack/Tempo` raises `AttributeError`; one without text raises `TypeError` |
| DawFileProcessor.FLStudioSuccess | daw_file_processor.py:384-394 | a success has one marker per `Playlist/Pattern/Channel` whose `name` is `Marker`, named by `text` and timed by `pos` |
| DawFileProcessor.FlMarkersShape | daw_file_processor.py:390-392 | each converted channel gives one marker with the channel's `text` and `pos` |
| DawFileProcessor.UndefinedLookupFinds | daw_file_processor.py:40-79 | the lookup in the table of undefined branches finds nothing exactly when no entry has the name, else the first entry with it |
| DawFileProcessor.BranchNamesDistinct | daw_file_processor.py:28-79 | the twenty undefined branch names are pairwise different, none of them is a defined DAW, and none is `Unknown` |
| DawFileProcessor.HandlerFor | daw_file_processor.py:28-82 | each of `Reaper`, `Pro Tools`, `Ableton Live`, `Logic Pro X`, `Cubase` and `FL Studio`, and only that name, reaches its own extractor. The final `else` is reached exactly by a name that is neither a defined DAW nor an undefined branch, and only an undefined branch name reaches an undefined callee |
| DawFileProcessor.RunHandler | daw_file_processor.py:28-82 | each branch runs its extractor; an undefined callee raises `NameError` (see `UndefinedRaisesNameError`) |
| DawFileProcessor.DawProjectInfo | daw_file_processor.py:24-83 | `get_daw_project_info`: the registry name chooses the branch (see `DefinedDawsDispatch`); an unlisted extension gives `{"daw_not_supported": "yes"}` (see `UnknownIsNotSupported`) |
| DawFileProcessor.DefinedDawsDispatch | daw_file_processor.py:28-39 | a file whose registry name is one of the six defined DAWs gets exactly the result of that DAW's extractor |
| DawFileProcessor.UnknownIsNotSupported | daw_file_processor.py:80-82 | an extension no registry row lists yields exactly `{"daw_not_supported": "yes"}` |
| DawFileProcessor.UnlistedIsNotSupported | daw_file_processor.py:80-82 | any name outside the chain yields `{"daw_not_supported": "yes"}` |
| DawFileProcessor.HandlerForUndefined | daw_file_processor.py:40-79 | each of the twenty branch names is sent to its own undefined callee |
| DawFileProcessor.UndefinedRaisesNameError | daw_file_processor.py:40-79 | so each of those names raises `NameError` for that callee, whatever the file |
| ProjectScanner.ProjectRoot | make_json_dtb_file.py:30-33 | the project root is a slash-free suffix of the project path, and the whole path when it holds no slash (for `parent/name` it is `name`, by `PyPath.BasenameOfChild`) |
| ProjectScanner.ProjectName | make_json_dtb_file.py:35-47 | the first entry whose lowercased name ends with a registry extension, in original case; `""` when none does |
| ProjectScanner.GetProjectName | make_json_dtb_file.py:38-46 | the two nested loops compute `ProjectName` |
| ProjectScanner.EmptyExtensionSelectsFirst | make_json_dtb_file.py:40-42 | an empty extension in the registry makes the first entry the project file |
| ProjectScanner.Stems | make_json_dtb_file.py:49-60 | the first directory whose lowercased name is a stems name; files are passed over; `""` when none |
| ProjectScanner.GetStems | make_json_dtb_file.py:50-59 | the loop computes `Stems` |
| ProjectScanner.StemsExample | make_json_dtb_file.py:52-53 | a file `Stems` is skipped and a directory `STEMS` is found |
| ProjectScanner.Images | make_json_dtb_file.py:117 | the images are exactly the file entries the image test accepts |
| ProjectScanner.Thumbnail | make_json_dtb_file.py:115-126 | the first image whose lowercased name contains `thumbnail`, else the first image, else `""`; always an image or `""` |
| ProjectScanner.KeywordMatch | make_json_dtb_file.py:143-147 | `None` exactly when no name carries a keyword, else the index of the first that does |
| ProjectScanner.FindKeywordMatch | make_json_dtb_file.py:143-147 | the early-return loop computes `KeywordMatch` |
| ProjectScanner.FirstWithKeyword | make_json_dtb_file.py:143-148 | the first name carrying a keyword, or `""`; always one of the names or `""` |
| ProjectScanner.StereoMix | make_json_dtb_file.py:140-149 | `get_stereo_mix`: the first audio file carrying `mix`, `stereo`, `render` or an extra keyword (see `FirstWithKeyword`, `GetStereoMix` and `EmptyKeywordTakesFirstAudio`) |
| ProjectScanner.GetStereoMix | make_json_dtb_file.py:140-149 | `get_stereo_mix` searches the audio files with `mix`, `stereo`, `render` and the extra keywords |
| ProjectScanner.StereoKeywordEmpty | make_json_dtb_file.py:252 | with no project file, or one whose name starts with a dot, the second extra keyword is `""` |
| ProjectScanner.EmptyKeywordTakesFirst | make_json_dtb_file.py:144 | an empty keyword is in every name, so the first name is taken |
| ProjectScanner.EmptyKeywordTakesFirstAudio | make_json_dtb_file.py:140-148 | so an empty extra keyword makes the first audio file the stereo mix |
| ProjectScanner.VideoFile | make_json_dtb_file.py:151-184 | the first video with a keyword; else the single video; else all videos; else the `video.url` link; else `""`. It fails only through the link branch, and there exactly when the stripped content has no `http` (`IndexError`) |
| ProjectScanner.DefaultKeywordsNeverMatch | make_json_dtb_file.py:151-160 | the default keywords `""` iterate over nothing, so no keyword match happens |
| ProjectScanner.VideoUrl | make_json_dtb_file.py:173-175 | the link read from `video.url`; its failure and its shape are stated by `VideoUrlShape` and `VideoUrlBetween` |
| ProjectScanner.VideoUrlShape | make_json_dtb_file.py:173-178 | the link branch fails exactly when the stripped content has no `http`, and otherwise yields text starting with `http` |
| ProjectScanner.VideoUrlBetween | make_json_dtb_file.py:175 | the link is `http` plus the text between the first and the second `http`, or up to the end when there is no second |
| ProjectScanner.ScoreFile | make_json_dtb_file.py:186-201 | several score files give the list, one gives its name, none gives `""` |
| ProjectScanner.RelativePath | make_json_dtb_file.py:128-138 | the `relpath` result, or the project path when `relpath` raises |
| ProjectScanner.NormalisedRelativePath | repository_handling.py:86-96 | on both branches every backslash becomes a slash, nothing else changes, and no backslash remains |
| UuidNaming.MatchLiteral | make_json_dtb_file.py:205 | a pattern without metacharacters matches only itself |
| UuidNaming.MatchPrefix | make_json_dtb_file.py:205 | a literal prefix of the pattern must be matched character for character |
| UuidNaming.MatchStarSuffix | make_json_dtb_file.py:205 | `*` followed by a literal suffix matches exactly the names ending with it |
| UuidNaming.MatchPrefixStarSuffix | make_json_dtb_file.py:205 | `prefix*suffix` matches exactly the names that start with the prefix and end with the suffix, without overlap |
| UuidNaming.Match | make_json_dtb_file.py:205 | `fnmatch` on POSIX; what it matches is stated by `MatchLiteral`, `MatchPrefix`, `MatchStarSuffix` and `MatchPrefixStarSuffix` |
| UuidNaming.FirstMatching | make_json_dtb_file.py:204-205 | `None` exactly when no entry matches, else the first entry that does |
| UuidNaming.ThirdField | make_json_dtb_file.py:207 | `filename.split('.')[2]`, `IndexError` with fewer than three fields (see `DatabaseNameFields` and `DottedRootFields`) |
| UuidNaming.FindExistingUuid | make_json_dtb_file.py:203-212 | `find_existing_uuid`; its loop is `GetExistingUuid`, and `UidRoundTrip` states that it recovers a written UUID |
| UuidNaming.GetExistingUuid | make_json_dtb_file.py:203-212 | the loop returns the third dot field of the first match, `IndexError` when it has fewer than three fields, `None` without a match |
| UuidNaming.ChooseUid | make_json_dtb_file.py:224-226 | a recovered non-empty UUID is kept; `None` and `""` are replaced by the new one |
| UuidNaming.ResolveUid | make_json_dtb_file.py:219-226 | the UUID a run settles on; `UidRoundTrip`, `EmptyUidIsReplaced` and `DottedRootLosesUid` state what it gives |
| UuidNaming.CopyHasSameName | make_json_dtb_file.py:267 | the written file and its copy in the project directory have the same base name |
| UuidNaming.DatabaseNameMatches | make_json_dtb_file.py:223 | a database file name matches the pattern of its root when the root is glob-free |
| UuidNaming.DatabaseNameFields | make_json_dtb_file.py:207 | for a dot-free root and UUID the dot fields are `DAW-REPO`, the root, the UUID and `json` |
| UuidNaming.UidRoundTrip | make_json_dtb_file.py:219-227 | a file written for a dot-free, glob-free root and a dot-free, non-empty UUID gives that UUID back when it is the first match |
| UuidNaming.EmptyUidIsReplaced | make_json_dtb_file.py:223-226 | a file `DAW-REPO.<root>..json` yields `""`, which is replaced by the new UUID |
| UuidNaming.DottedRootLosesUid | make_json_dtb_file.py:207 | with a root `a.b` the recovered field is `b`, not the stored UUID |
| UuidNaming.DottedRootFields | make_json_dtb_file.py:207 | with a root `a.b` the name splits into five dot fields |
| ProjectDirectories.LowerAll | make_json_dtb_file.py:289 | each extension of a row, lowercased, in order |
| ProjectDirectories.AddRows | make_json_dtb_file.py:287-291 | the row loop of `read_daw_info`; its failure, keys and values are stated by `AddRowsFailure`, `AddRowsKeys`, `AddRowsLastWins` and `AddRowsUntouched` |
| ProjectDirectories.DawInfo | make_json_dtb_file.py:275-294 | `read_daw_info`: `StopIteration` without a header row, else `AddRows` from the empty map; its loop is `ReadDawInfo` |
| ProjectDirectories.ReadDawInfo | make_json_dtb_file.py:275-294 | the loop computes `DawInfo`: `StopIteration` for an empty file, else the map from the data rows |
| ProjectDirectories.AddRowsFailure | make_json_dtb_file.py:287-288 | reading the registry raises exactly when some data row is blank |
| ProjectDirectories.AddRowsKeys | make_json_dtb_file.py:287-291 | the keys are the earlier keys and the names of the non-blank rows (for `read_daw_info`, which starts empty: the row names) |
| ProjectDirectories.AddRowsLastWins | make_json_dtb_file.py:290 | each name maps to the lowercased extensions of the last row carrying it |
| ProjectDirectories.AddRowsUntouched | make_json_dtb_file.py:290 | a key no row names keeps its value |
| ProjectDirectories.HasProjectFile | make_json_dtb_file.py:296-308 | `check_for_project_directory`; its meaning is stated by `HasProjectFileMeans` and its loops by `CheckForProjectDirectory` |
| ProjectDirectories.HasProjectFileMeans | make_json_dtb_file.py:296-308 | `check_for_project_directory` is true exactly when some entry's lowercased extension is in some DAW's list |
| ProjectDirectories.InSomeValue | make_json_dtb_file.py:301-305 | the inner loop finds the extension exactly when some DAW's list holds it |
| ProjectDirectories.CheckName | make_json_dtb_file.py:299-305 | one outer iteration decides whether the entry is a DAW file |
| ProjectDirectories.CheckForProjectDirectory | repository_handling.py:100-112 | the two loops compute `HasProjectFile` |
| ProjectDirectories.Pruned | make_json_dtb_file.py:312-330 | pruning never lengthens the list, and every path it keeps belongs to a candidate that passes the filter |
| ProjectDirectories.PrunedMembers | make_json_dtb_file.py:314-329 | a path survives exactly when a candidate with that path passes the filter |
| ProjectDirectories.PrunedConcat | make_json_dtb_file.py:314-329 | pruning distributes over concatenation, so input order is kept |
| ProjectDirectories.PrunedSnoc | make_json_dtb_file.py:326-327 | one more candidate adds its path exactly when it passes |
| ProjectDirectories.KeepDirectory | make_json_dtb_file.py:315-326 | one iteration keeps a candidate exactly when its basename is not hidden, not an ignored name, and its listing holds a DAW file |
| ProjectDirectories.PruneStep | make_json_dtb_file.py:314-328 | one iteration extends the pruned prefix by one candidate |
| ProjectDirectories.PruneDirectories | make_json_dtb_file.py:312-330 | the loop computes `Pruned` over the three tests |
| ProjectDirectories.LocateProjects | make_json_dtb_file.py:310-331 | `locate_project_directories`: the registry failure, or the pruned paths; its loop is `LocateProjectDirectories` |
| ProjectDirectories.LocateProjectDirectories | make_json_dtb_file.py:310-331 | the registry is read first, and its failure is the result |
| ProjectDirectories.ChildKept | make_json_dtb_file.py:316-323 | `parent/name` is kept exactly when `name` is not hidden, is no ignored name in any case, and its listing has a DAW file |
| DirectoryTrees.AssignMeans | repository_handling.py:80 | `tree[f] = subtree` maps `f` to the subtree and leaves every other key alone; a new key goes last |
| DirectoryTrees.DictTreeOf | repository_handling.py:68-84 | `get_directory_tree_asDictionary`; its shape is stated by `DictTreeFiles`, `DictTreeKeys`, `DictTreeLookup` and `DictTreeFileCount` |
| DirectoryTrees.BuildDictTree | repository_handling.py:68-84 | the loop and the recursion build `DictTreeOf` |
| DirectoryTrees.DictTreeFiles | repository_handling.py:73-75 | the list under `""` holds the level's file names in listing order |
| DirectoryTrees.DictTreeKeys | repository_handling.py:76-80 | with distinct names, the other keys are the directory names in listing order |
| DirectoryTrees.DictTreeLookup | repository_handling.py:76-80 | with distinct names, each directory's key maps to that directory's tree |
| DirectoryTrees.DictTreeFileCount | repository_handling.py:68-84 | on a tree with distinct names at every level, the dictionary records every file exactly once |
| DirectoryTrees.BuildListTree | repository_handling.py:48-66 | the loop and the recursion build `ListTreeOf` |
| DirectoryTrees.ListTreeOf | repository_handling.py:48-66 | `get_directory_tree_asList`; `ListTreeRoundTrip` states that it loses nothing |
| DirectoryTrees.ListTreeRoundTrip | repository_handling.py:48-66 | reading the list form back gives the listing: names are files, one-key dicts are directories, order is kept at every level |
| DirectoryTrees.Walk | repository_handling.py:37 | `os.walk` top-down; `WalkFileCount` states that it reports every file once |
| DirectoryTrees.WalkFileCount | repository_handling.py:37 | a top-down walk reports every file of the tree once |
| DirectoryTrees.JoinAllNames | repository_handling.py:41 | each joined path ends in its file's name |
| DirectoryTrees.FilepathList | make_json_dtb_file.py:80-93 | `get_filepath_list` of make_json_dtb_file.py; its loops are `GetFilepathList`, its length is stated by `FilepathListLength` and `FilepathListOfWalk` |
| DirectoryTrees.RootlessFilepathList | repository_handling.py:32-46 | `get_filepath_list` of repository_handling.py; its loops are `GetRootlessFilepathList`, and `RootRemovedEverywhere` shows that the root is removed everywhere |
| DirectoryTrees.GetFilepathList | make_json_dtb_file.py:80-93 | the loops compute `FilepathList`: every file of every walk step joined to its directory, in walk order |
| DirectoryTrees.GetRootlessFilepathList | repository_handling.py:32-46 | the loops compute `RootlessFilepathList`: the same, with every occurrence of the root removed from the directory first |
| DirectoryTrees.FilepathListLength | repository_handling.py:32-46 | both variants give one path per walked file name |
| DirectoryTrees.FilepathListOfWalk | repository_handling.py:32-46 | over a walk both variants list as many paths as the tree has files |
| DirectoryTrees.RootRemovedEverywhere | repository_handling.py:38 | the root is removed everywhere, not as a prefix: walking `a`, the file `x` of `a/a` is listed as `/x` |

## Left out

- Filesystem access (`os.listdir`, `os.walk`, `isfile`/`isdir`, `getmtime`, `makedirs`) is replaced by listings and walk steps given as data. Only files and directories exist; symbolic links and other entry kinds do not.
- `DirectoryTrees.Walk`: the walk visits subdirectories in listing order. The order `os.walk` really uses comes from the operating system.
- `DirectoryTrees.DictTreeOf`: `os.path.relpath(full_path, rootPath)` of a file directly in `rootPath` is taken to be its name. A subdirectory named `""` cannot exist, so it cannot collide with the `""` key.
- Reading the CSV registry, writing and copying the JSON files (`json.dump`, `shutil.copy2`) and the console message are I/O. CSV rows are the input.
- `DawFileProcessor.DawName`: `csv.DictReader` yields `None` for a missing cell of a short row. Rows here always have both cells.
- `uuid.uuid4()` is the parameter `newUid`. `time.strftime` of the modification time, and the metadata dictionary built around the modelled fields, are not modelled.
- `os.path.relpath` arithmetic and `os.path.realpath(__file__)` are not modelled. `relpath` is an input, `None` when it raises `ValueError`.
- `imghdr.what` is the parameter `isImage`.
- The `__main__` block, `argparse`, `--autolist` and the `--onefile` combiner are left out. So is run_make_json_file.py, which only starts a subprocess.
- `plistlib.load`, `ET.parse`, opening the files and their failures are left out. The extractors start from decoded data.
- `DawFileProcessor.ProToolsInfo`, `DawFileProcessor.AbletonLiveInfo`: beyond the guard and the import check, the SDK code (aaf2, the Live API) is an input result. The `*_info2` variants are left out. They are never dispatched to.
- `DawFileProcessor.ReaperInfo`: the code after the fixed `return` is unreachable and is not modelled.
- `DawFileProcessor.FloatOf`: `float()` keeps the text of the value. The `ValueError` for non-numeric text and the floating-point value are not modelled.
- `PyStr.Lower`: only ASCII letters are lowered. Non-ASCII case mapping is not modelled.
- `PyStr.IsSpace`: only ASCII whitespace and the separators `\x1c`-`\x1f` count. Non-ASCII whitespace is not modelled.
- `UuidNaming.Match`: `[...]` character classes are matched literally, and the platform `normcase` is taken to be the identity (POSIX). The lemmas assume roots free of `*`, `?` and `[`.
- `ProjectScanner.VideoFile`: `keywords` is a sequence of strings; the default `""` is the empty sequence. Iterating over a string's characters for a non-empty string argument is not modelled, since the only caller passes the default.
- `Plist.Index`: indexing a dictionary with an integer raises `KeyError` carrying the integer in Python. The model's `KeyError` carries text, so the index is written as text.
- `Plist`: plist `<data>` (bytes) values have no case of their own in the decoded value. No modelled lookup depends on them.
