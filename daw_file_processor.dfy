/** daw_file_processor.py: the extension registry lookup, the dispatch on the
    DAW name and the per-format extractors, each with its extension guard and
    its capability check. Reading and decoding the project file are inputs: the
    extractors start from the decoded plist, the parsed XML tree, and, for the
    two SDK-based formats, the outcome of the SDK code. */
module DawFileProcessor {
  import opened Wrappers
  import opened Seqs
  import opened PyStr
  import opened PyPath
  import opened PyErrors
  import opened Plist
  import opened XmlTree

  // ---------------------------------------------------------------- registry

  /** One data row of the registry CSV, read with `csv.DictReader`. */
  datatype DawRow = DawRow(name: string, extension: string)

  /** `extension in row['extension'].split(',')`: the pieces are neither
      trimmed nor lowercased. */
  predicate RowMatches(row: DawRow, extension: string) {
    extension in SplitChar(row.extension, ',')
  }

  /** The lowercased `splitext` extension of the project file. */
  function LookupExtension(path: string): string {
    Lower(Ext(path))
  }

  /** The index of the first row that lists `extension`. */
  function FirstMatch(rows: seq<DawRow>, extension: string): (r: Option<nat>)
    ensures r.None? <==> forall i :: 0 <= i < |rows| ==> !RowMatches(rows[i], extension)
    ensures r.Some? ==> r.value < |rows| && RowMatches(rows[r.value], extension) &&
                        forall j :: 0 <= j < r.value ==> !RowMatches(rows[j], extension)
  {
    FirstIndex(rows, (row: DawRow) => RowMatches(row, extension))
  }

  /** The name of the first row that lists `extension`, or `Unknown`. */
  function NameFor(rows: seq<DawRow>, extension: string): (name: string)
    ensures (forall i :: 0 <= i < |rows| ==> !RowMatches(rows[i], extension)) ==> name == "Unknown"
    ensures forall i :: 0 <= i < |rows| && RowMatches(rows[i], extension) &&
                        (forall j :: 0 <= j < i ==> !RowMatches(rows[j], extension))
                        ==> name == rows[i].name
  {
    var r := FirstMatch(rows, extension);
    if r.None? then "Unknown" else rows[r.value].name
  }

  /** `get_daw_name`: the registry name for the file's lowercased extension. */
  function DawName(path: string, rows: seq<DawRow>): string {
    NameFor(rows, LookupExtension(path))
  }

  /** The loop of `get_daw_name`, returning from inside it at the first match. */
  method FindDawName(rows: seq<DawRow>, extension: string) returns (name: string)
    ensures name == NameFor(rows, extension)
  {
    var i := 0;
    while i < |rows|
      invariant 0 <= i <= |rows|
      invariant forall j :: 0 <= j < i ==> !RowMatches(rows[j], extension)
    {
      if RowMatches(rows[i], extension) {
        return rows[i].name;
      }
      i := i + 1;
    }
    return "Unknown";
  }

  /** `get_daw_name` as a method. */
  method GetDawName(path: string, rows: seq<DawRow>) returns (name: string)
    ensures name == DawName(path, rows)
  {
    name := FindDawName(rows, Lower(Ext(path)));
  }

  /** An empty extension (a dot-less name, a dotfile, a path ending in `/`) is
      looked up like any other: it resolves to `Unknown` unless some extension
      cell has an empty comma-separated piece. */
  lemma EmptyExtensionIsUnknown(path: string, rows: seq<DawRow>)
    requires Ext(path) == ""
    requires forall i :: 0 <= i < |rows| ==> "" !in SplitChar(rows[i].extension, ',')
    ensures DawName(path, rows) == "Unknown"
  {
    assert LookupExtension(path) == "";
  }

  // ----------------------------------------------------------- project info

  /** A float parsed from the text of an attribute or element; the conversion
      itself is not modelled. */
  datatype Float = Float(text: string)

  /** A marker dictionary of the Logic Pro X extractor: the values stored under
      `Name` and `Time`, as decoded. */
  datatype PlistMarker = PlistMarker(name: PValue, time: PValue)

  /** A marker dictionary of the XML extractors: `get` of the name attribute
      (possibly `None`) and `float` of the position attribute. */
  datatype XmlMarker = XmlMarker(name: Option<string>, time: Float)

  /** The dictionaries `get_daw_project_info` can return. */
  datatype ProjectInfo =
    | NotSupported                              // {"daw_not_supported": "yes"}
    | NoInfo                                    // {}
    | Notes(dawName: string, notes: string)     // {"daw_name": ..., "notes": ...}
    | PlistInfo(dawName: string, tempo: PValue, timeSignature: string, markers: seq<PlistMarker>)
    | XmlInfo(dawName: string, xmlTempo: Float, timeSignature: string, xmlMarkers: seq<XmlMarker>)

  /** Whether each optional parsing facility can be imported. */
  datatype Capabilities = Capabilities(reapy: bool, aaf2: bool, ableton: bool, plistlib: bool, elementTree: bool)

  /** What opening the project file would give each extractor: the decoded
      plist, the parsed XML tree, and what the Pro Tools and Ableton Live SDK
      code (not modelled) returns or raises. */
  datatype Contents = Contents(
    plist: PValue,
    xml: Element,
    proToolsSdk: Result<ProjectInfo, PyError>,
    abletonSdk: Result<ProjectInfo, PyError>)

  /** The extension guard every extractor starts with. */
  predicate HasSuffix(path: string, extension: string) {
    EndsWith(Lower(path), extension)
  }

  // ------------------------------------------------------------ extractors

  /** `get_reaper_info`: after the guard and the import check it returns a fixed
      note; the parsing code after that `return` is never reached. */
  function ReaperInfo(path: string, caps: Capabilities): (info: ProjectInfo)
    ensures info != NoInfo <==> HasSuffix(path, ".rpp") && caps.reapy
    ensures info == NoInfo || info == Notes("Reaper", "FILE NOT SUPPORTED!")
  {
    if !HasSuffix(path, ".rpp") then NoInfo
    else if !caps.reapy then NoInfo
    else Notes("Reaper", "FILE NOT SUPPORTED!")
  }

  /** `get_pro_tools_info`: guard, import check, then the AAF SDK. */
  function ProToolsInfo(path: string, caps: Capabilities, contents: Contents): Result<ProjectInfo, PyError> {
    if !HasSuffix(path, ".ptx") then Success(NoInfo)
    else if !caps.aaf2 then Success(NoInfo)
    else contents.proToolsSdk
  }

  /** `get_ableton_live_info`: guard, import check, then the Live API. */
  function AbletonLiveInfo(path: string, caps: Capabilities, contents: Contents): Result<ProjectInfo, PyError> {
    if !HasSuffix(path, ".als") then Success(NoInfo)
    else if !caps.ableton then Success(NoInfo)
    else contents.abletonSdk
  }

  /** `{"name": marker['Name'], "time": marker['Time']}`. */
  function PlistMarkerOf(marker: PValue): Result<PlistMarker, PyError> {
    var name :- Subscript(marker, "Name");
    var time :- Subscript(marker, "Time");
    Success(PlistMarker(name, time))
  }

  /** The marker loop of `get_logic_pro_x_info` (lines 320-323). */
  method CollectPlistMarkers(items: seq<PValue>) returns (r: Result<seq<PlistMarker>, PyError>)
    ensures r == Traverse(items, PlistMarkerOf)
  {
    var markers: seq<PlistMarker> := [];
    for i := 0 to |items|
      invariant |markers| == i
      invariant forall j :: 0 <= j < i ==> PlistMarkerOf(items[j]).Success? && markers[j] == PlistMarkerOf(items[j]).value
    {
      var name := Subscript(items[i], "Name");
      if name.Failure? {
        return Failure(name.error);
      }
      var time := Subscript(items[i], "Time");
      if time.Failure? {
        return Failure(time.error);
      }
      markers := markers + [PlistMarker(name.value, time.value)];
    }
    assert Traverse(items, PlistMarkerOf).value == markers;
    return Success(markers);
  }

  /** `get_logic_pro_x_info`: every key is looked up with `[]`, so a missing key
      raises; the time signature is the first two elements joined by `/`. */
  function LogicProXInfo(path: string, caps: Capabilities, plist: PValue): Result<ProjectInfo, PyError> {
    if !HasSuffix(path, ".logicx") then Success(NoInfo)
    else if !caps.plistlib then Success(NoInfo)
    else
      var tempo :- Subscript(plist, "Tempo");
      var signature :- Subscript(plist, "NumericalTimeSignature");
      var numerator :- Index(signature, 0);
      var denominator :- Index(signature, 1);
      var markerList :- Subscript(plist, "Markers");
      var items :- Iterate(markerList);
      var markers :- Traverse(items, PlistMarkerOf);
      Success(PlistInfo("Logic Pro X", tempo, Str(numerator) + "/" + Str(denominator), markers))
  }

  /** `float(x)` of an optional string: `float(None)` raises. */
  function FloatOf(x: Option<string>): Result<Float, PyError> {
    match x
    case None => Failure(TypeError)
    case Some(t) => Success(Float(t))
  }

  /** `f"{x}"` of an optional string. */
  function ShowOpt(x: Option<string>): string {
    match x
    case None => "None"
    case Some(s) => s
  }

  /** A node that `find` returned; `None` raises as soon as it is used. */
  function Found(node: Option<Element>): Result<Element, PyError> {
    match node
    case None => Failure(AttributeError)
    case Some(e) => Success(e)
  }

  /** `{"name": node.get(nameAttr), "time": float(node.get(positionAttr))}`. */
  function XmlMarkerOf(node: Element, nameAttr: string, positionAttr: string): Result<XmlMarker, PyError> {
    var time :- FloatOf(Get(node, positionAttr));
    Success(XmlMarker(Get(node, nameAttr), time))
  }

  function CubaseMarkerOf(node: Element): Result<XmlMarker, PyError> {
    XmlMarkerOf(node, "Name", "Position")
  }

  /** The marker loop of `get_cubase_info` (lines 356-358). */
  method CollectCubaseMarkers(nodes: seq<Element>) returns (r: Result<seq<XmlMarker>, PyError>)
    ensures r == Traverse(nodes, CubaseMarkerOf)
  {
    var markers: seq<XmlMarker> := [];
    for i := 0 to |nodes|
      invariant |markers| == i
      invariant forall j :: 0 <= j < i ==> CubaseMarkerOf(nodes[j]).Success? && markers[j] == CubaseMarkerOf(nodes[j]).value
    {
      var position := Get(nodes[i], "Position");
      if position.None? {
        return Failure(TypeError);
      }
      markers := markers + [XmlMarker(Get(nodes[i], "Name"), Float(position.value))];
    }
    assert Traverse(nodes, CubaseMarkerOf).value == markers;
    return Success(markers);
  }

  /** `get_cubase_info`: only nodes flagged `UseMusicalTimeBase='true'`
      anywhere below the root count; a missing tempo or time-signature node
      raises. A missing numerator or denominator attribute prints as `None`. */
  function CubaseInfo(path: string, caps: Capabilities, root: Element): Result<ProjectInfo, PyError> {
    if !HasSuffix(path, ".cpr") then Success(NoInfo)
    else if !caps.elementTree then Success(NoInfo)
    else
      var tempoNode :- Found(FindBelow(root, "Tempo", "UseMusicalTimeBase", "true"));
      var tempo :- FloatOf(Get(tempoNode, "Value"));
      var signatureNode :- Found(FindBelow(root, "TimeSignature", "UseMusicalTimeBase", "true"));
      var signature := ShowOpt(Get(signatureNode, "Numerator")) + "/" + ShowOpt(Get(signatureNode, "Denominator"));
      var markers :- Traverse(FindAllBelow(root, "Marker", "UseMusicalTimeBase", "true"), CubaseMarkerOf);
      Success(XmlInfo("Cubase", tempo, signature, markers))
  }

  /** An FL Studio marker takes its name from `text` and its time from `pos`. */
  function FlMarkerOf(node: Element): Result<XmlMarker, PyError> {
    XmlMarkerOf(node, "text", "pos")
  }

  /** The channels `./Playlist/Pattern/Channel[@name='Marker']` selects. */
  function FlMarkerChannels(root: Element): seq<Element> {
    Filter(SelectPath([root], ["Playlist", "Pattern", "Channel"]), (e: Element) => Get(e, "name") == Some("Marker"))
  }

  /** The marker loop of `get_fl_studio_info` (lines 390-392). */
  method CollectFlMarkers(nodes: seq<Element>) returns (r: Result<seq<XmlMarker>, PyError>)
    ensures r == Traverse(nodes, FlMarkerOf)
  {
    var markers: seq<XmlMarker> := [];
    for i := 0 to |nodes|
      invariant |markers| == i
      invariant forall j :: 0 <= j < i ==> FlMarkerOf(nodes[j]).Success? && markers[j] == FlMarkerOf(nodes[j]).value
    {
      var position := Get(nodes[i], "pos");
      if position.None? {
        return Failure(TypeError);
      }
      markers := markers + [XmlMarker(Get(nodes[i], "text"), Float(position.value))];
    }
    assert Traverse(nodes, FlMarkerOf).value == markers;
    return Success(markers);
  }

  /** `get_fl_studio_info`: child paths from the root; the tempo is the text of
      `MasterTrack/Tempo`, so a missing node or a missing text raises. */
  function FLStudioInfo(path: string, caps: Capabilities, root: Element): Result<ProjectInfo, PyError> {
    if !HasSuffix(path, ".flp") then Success(NoInfo)
    else if !caps.elementTree then Success(NoInfo)
    else
      var tempoNode :- Found(FindPath(root, ["MasterTrack", "Tempo"]));
      var tempo :- FloatOf(tempoNode.text);
      var signatureNode :- Found(FindPath(root, ["MasterTrack", "TimeSignature"]));
      var signature := ShowOpt(Get(signatureNode, "Num")) + "/" + ShowOpt(Get(signatureNode, "Den"));
      var markers :- Traverse(FlMarkerChannels(root), FlMarkerOf);
      Success(XmlInfo("FL Studio", tempo, signature, markers))
  }

  // -------------------------------------------------------------- dispatch

  /** Where the if/elif chain of `get_daw_project_info` sends a DAW name. */
  datatype Handler =
    | ReaperHandler
    | ProToolsHandler
    | AbletonLiveHandler
    | LogicProXHandler
    | CubaseHandler
    | FLStudioHandler
    | UndefinedHandler(callee: string)   // a `get_*_info` this file never defines
    | UnsupportedHandler                   // the final `else`

  const DefinedDaws: seq<string> := ["Reaper", "Pro Tools", "Ableton Live", "Logic Pro X", "Cubase", "FL Studio"]

  /** The branches whose callee is not defined anywhere, with that callee's name. */
  const UndefinedDaws: seq<(string, string)> := [
    ("Reason", "get_reason_info"), ("Nuendo", "get_nuendo_info"),
    ("Bitwig Studio", "get_bitwig_studio_info"), ("GarageBand", "get_garageband_info"),
    ("Studio One", "get_studio_one_info"), ("Mixcraft", "get_mixcraft_info"),
    ("Cakewalk Sonar", "get_sonar_info"), ("Digital Performer", "get_digital_performer_info"),
    ("Ardour", "get_ardour_info"), ("Magix Music Maker", "get_music_maker_info"),
    ("MuLab", "get_mulab_info"), ("Audacity", "get_audacity_info"),
    ("N-Track Studio", "get_n_track_info"), ("OpenMPT", "get_openmpt_info"),
    ("Renoise", "get_renoise_info"), ("Rosegarden", "get_rosegarden_info"),
    ("Samplitude", "get_samplitude_info"), ("Sibelius", "get_sibelius_info"),
    ("Tracktion", "get_tracktion_info"), ("Zune Playlist", "get_zune_playlist_info")]

  predicate IsUndefinedDaw(name: string) {
    exists i :: 0 <= i < |UndefinedDaws| && UndefinedDaws[i].0 == name
  }

  function UndefinedLookup(name: string, table: seq<(string, string)>): Option<string> {
    if table == [] then None
    else if table[0].0 == name then Some(table[0].1)
    else UndefinedLookup(name, table[1..])
  }

  lemma {:induction false} UndefinedLookupFinds(name: string, table: seq<(string, string)>)
    ensures UndefinedLookup(name, table).None? <==> forall i :: 0 <= i < |table| ==> table[i].0 != name
    ensures forall i :: 0 <= i < |table| && table[i].0 == name && (forall j :: 0 <= j < i ==> table[j].0 != name)
                        ==> UndefinedLookup(name, table) == Some(table[i].1)
  {
    if table != [] {
      UndefinedLookupFinds(name, table[1..]);
      assert forall i :: 1 <= i < |table| ==> table[i] == table[1..][i - 1];
    }
  }

  /** The branch names are pairwise different, and `Unknown` is none of them. */
  lemma BranchNamesDistinct()
    ensures forall i, j :: 0 <= i < j < |UndefinedDaws| ==> UndefinedDaws[i].0 != UndefinedDaws[j].0
    ensures forall i :: 0 <= i < |UndefinedDaws| ==> UndefinedDaws[i].0 !in DefinedDaws && UndefinedDaws[i].0 != "Unknown"
    ensures "Unknown" !in DefinedDaws
  {
  }

  /** The if/elif chain. Only a name the chain does not list reaches the
      final `else`. */
  function HandlerFor(name: string): (h: Handler)
    ensures h == UnsupportedHandler <==> name !in DefinedDaws && !IsUndefinedDaw(name)
    ensures h.UndefinedHandler? ==> IsUndefinedDaw(name)
    ensures h == ReaperHandler <==> name == "Reaper"
    ensures h == ProToolsHandler <==> name == "Pro Tools"
    ensures h == AbletonLiveHandler <==> name == "Ableton Live"
    ensures h == LogicProXHandler <==> name == "Logic Pro X"
    ensures h == CubaseHandler <==> name == "Cubase"
    ensures h == FLStudioHandler <==> name == "FL Studio"
  {
    UndefinedLookupFinds(name, UndefinedDaws);
    if name == "Reaper" then ReaperHandler
    else if name == "Pro Tools" then ProToolsHandler
    else if name == "Ableton Live" then AbletonLiveHandler
    else if name == "Logic Pro X" then LogicProXHandler
    else if name == "Cubase" then CubaseHandler
    else if name == "FL Studio" then FLStudioHandler
    else
      match UndefinedLookup(name, UndefinedDaws)
      case Some(callee) => UndefinedHandler(callee)
      case None => UnsupportedHandler
  }

  /** Run one branch of the chain. Calling an undefined function raises `NameError`. */
  function RunHandler(h: Handler, path: string, caps: Capabilities, contents: Contents): Result<ProjectInfo, PyError> {
    match h
    case ReaperHandler => Success(ReaperInfo(path, caps))
    case ProToolsHandler => ProToolsInfo(path, caps, contents)
    case AbletonLiveHandler => AbletonLiveInfo(path, caps, contents)
    case LogicProXHandler => LogicProXInfo(path, caps, contents.plist)
    case CubaseHandler => CubaseInfo(path, caps, contents.xml)
    case FLStudioHandler => FLStudioInfo(path, caps, contents.xml)
    case UndefinedHandler(callee) => Failure(NameError(callee))
    case UnsupportedHandler => Success(NotSupported)
  }

  /** `get_daw_project_info`. */
  function DawProjectInfo(path: string, rows: seq<DawRow>, caps: Capabilities, contents: Contents): Result<ProjectInfo, PyError> {
    RunHandler(HandlerFor(DawName(path, rows)), path, caps, contents)
  }

  // ---------------------------------------------------------------- lemmas

  /** Every extractor answers `{}` for a file without its extension, and for a
      missing parsing module, whatever the file holds. */
  lemma GuardsGiveNoInfo(path: string, caps: Capabilities, contents: Contents)
    ensures !HasSuffix(path, ".ptx") || !caps.aaf2 ==> ProToolsInfo(path, caps, contents) == Success(NoInfo)
    ensures !HasSuffix(path, ".als") || !caps.ableton ==> AbletonLiveInfo(path, caps, contents) == Success(NoInfo)
    ensures !HasSuffix(path, ".logicx") || !caps.plistlib ==> LogicProXInfo(path, caps, contents.plist) == Success(NoInfo)
    ensures !HasSuffix(path, ".cpr") || !caps.elementTree ==> CubaseInfo(path, caps, contents.xml) == Success(NoInfo)
    ensures !HasSuffix(path, ".flp") || !caps.elementTree ==> FLStudioInfo(path, caps, contents.xml) == Success(NoInfo)
  {
  }

  /** The extension guard ignores case: `.LOGICX` passes it like `.logicx`. */
  lemma GuardIgnoresCase()
    ensures HasSuffix("Song.LOGICX", ".logicx")
  {
    assert Lower("Song.LOGICX") == "song.logicx";
  }

  /** Once its guards pass, the Logic Pro X extractor never answers `{}`: it
      either raises or returns the full dictionary. */
  lemma LogicProXNeverEmpty(path: string, caps: Capabilities, plist: PValue)
    requires HasSuffix(path, ".logicx") && caps.plistlib
    ensures var r := LogicProXInfo(path, caps, plist); r.Success? ==> r.value.PlistInfo?
  {
  }

  /** The keys are looked up in source order; the first missing one raises
      `KeyError` with its name. */
  lemma LogicProXMissingKey(path: string, caps: Capabilities, entries: seq<PEntry>)
    requires HasSuffix(path, ".logicx") && caps.plistlib
    ensures LookupEntry(entries, "Tempo").None? ==>
              LogicProXInfo(path, caps, PDict(entries)) == Failure(KeyError("Tempo"))
    ensures LookupEntry(entries, "Tempo").Some? && LookupEntry(entries, "NumericalTimeSignature").None? ==>
              LogicProXInfo(path, caps, PDict(entries)) == Failure(KeyError("NumericalTimeSignature"))
  {
  }

  /** A time signature list with fewer than two elements raises `IndexError`. */
  lemma LogicProXShortSignature(path: string, caps: Capabilities, entries: seq<PEntry>, signature: seq<PValue>)
    requires HasSuffix(path, ".logicx") && caps.plistlib
    requires LookupEntry(entries, "Tempo").Some?
    requires LookupEntry(entries, "NumericalTimeSignature") == Some(PArray(signature))
    requires |signature| < 2
    ensures LogicProXInfo(path, caps, PDict(entries)) == Failure(IndexError)
  {
  }

  /** What a successful Logic Pro X extraction holds: the stored tempo, the
      first two time-signature elements joined by `/` (any further ones are
      ignored), and one marker per element of `Markers`, in order, carrying
      that element's `Name` and `Time`. */
  lemma LogicProXSuccess(path: string, caps: Capabilities, plist: PValue)
    requires HasSuffix(path, ".logicx") && caps.plistlib
    requires LogicProXInfo(path, caps, plist).Success?
    ensures Subscript(plist, "Tempo").Success? && Subscript(plist, "NumericalTimeSignature").Success?
    ensures Subscript(plist, "Markers").Success? && Iterate(Subscript(plist, "Markers").value).Success?
    ensures var info := LogicProXInfo(path, caps, plist).value;
      var signature := Subscript(plist, "NumericalTimeSignature").value;
      info.PlistInfo? && info.dawName == "Logic Pro X" && info.tempo == Subscript(plist, "Tempo").value &&
      Index(signature, 0).Success? && Index(signature, 1).Success? &&
      info.timeSignature == Str(Index(signature, 0).value) + "/" + Str(Index(signature, 1).value)
    ensures var info := LogicProXInfo(path, caps, plist).value;
      var items := Iterate(Subscript(plist, "Markers").value).value;
      |info.markers| == |items| &&
      forall i :: 0 <= i < |items| ==>
        Subscript(items[i], "Name") == Success(info.markers[i].name) &&
        Subscript(items[i], "Time") == Success(info.markers[i].time)
  {
    var items := Iterate(Subscript(plist, "Markers").value).value;
    var markers := Traverse(items, PlistMarkerOf);
    assert markers.Success?;
    forall i | 0 <= i < |items|
      ensures Subscript(items[i], "Name") == Success(markers.value[i].name)
      ensures Subscript(items[i], "Time") == Success(markers.value[i].time)
    {
      assert PlistMarkerOf(items[i]).Success?;
    }
  }

  /** The Cubase extractor raises when no tempo node is flagged
      `UseMusicalTimeBase='true'`. */
  lemma CubaseMissingTempo(path: string, caps: Capabilities, root: Element)
    requires HasSuffix(path, ".cpr") && caps.elementTree
    requires FindAllBelow(root, "Tempo", "UseMusicalTimeBase", "true") == []
    ensures CubaseInfo(path, caps, root) == Failure(AttributeError)
  {
  }

  /** A successful Cubase extraction reads the first flagged tempo and time
      signature nodes below the root and has one marker per flagged `Marker`
      node, in document order, named by its `Name` attribute. */
  lemma CubaseSuccess(path: string, caps: Capabilities, root: Element)
    requires HasSuffix(path, ".cpr") && caps.elementTree
    requires CubaseInfo(path, caps, root).Success?
    ensures var tempo := FindBelow(root, "Tempo", "UseMusicalTimeBase", "true");
      var info := CubaseInfo(path, caps, root).value;
      tempo.Some? && info.XmlInfo? && info.dawName == "Cubase" && Get(tempo.value, "Value") == Some(info.xmlTempo.text)
    ensures var signature := FindBelow(root, "TimeSignature", "UseMusicalTimeBase", "true");
      var info := CubaseInfo(path, caps, root).value;
      signature.Some? &&
      info.timeSignature == ShowOpt(Get(signature.value, "Numerator")) + "/" + ShowOpt(Get(signature.value, "Denominator"))
    ensures var nodes := FindAllBelow(root, "Marker", "UseMusicalTimeBase", "true");
      var info := CubaseInfo(path, caps, root).value;
      |info.xmlMarkers| == |nodes| &&
      forall i :: 0 <= i < |nodes| ==>
        info.xmlMarkers[i].name == Get(nodes[i], "Name") && Get(nodes[i], "Position") == Some(info.xmlMarkers[i].time.text)
  {
    var nodes := FindAllBelow(root, "Marker", "UseMusicalTimeBase", "true");
    var markers := Traverse(nodes, CubaseMarkerOf);
    assert markers.Success?;
    forall i | 0 <= i < |nodes|
      ensures markers.value[i].name == Get(nodes[i], "Name") && Get(nodes[i], "Position") == Some(markers.value[i].time.text)
    {
      assert CubaseMarkerOf(nodes[i]).Success?;
    }
  }

  /** FL Studio: a missing `MasterTrack/Tempo` node raises `AttributeError`; one
      without text raises `TypeError`. */
  lemma FLStudioTempoErrors(path: string, caps: Capabilities, root: Element)
    requires HasSuffix(path, ".flp") && caps.elementTree
    ensures FindPath(root, ["MasterTrack", "Tempo"]).None? ==> FLStudioInfo(path, caps, root) == Failure(AttributeError)
    ensures var tempo := FindPath(root, ["MasterTrack", "Tempo"]);
      tempo.Some? && tempo.value.text.None? ==> FLStudioInfo(path, caps, root) == Failure(TypeError)
  {
  }

  /** A successful FL Studio extraction has one marker per `Channel` child of a
      `Pattern` child of a `Playlist` child of the root whose `name` is `Marker`. */
  lemma FLStudioSuccess(path: string, caps: Capabilities, root: Element)
    requires HasSuffix(path, ".flp") && caps.elementTree
    requires FLStudioInfo(path, caps, root).Success?
    ensures var info := FLStudioInfo(path, caps, root).value;
      var nodes := FlMarkerChannels(root);
      info.XmlInfo? && info.dawName == "FL Studio" && |info.xmlMarkers| == |nodes| &&
      forall i :: 0 <= i < |nodes| ==>
        Get(nodes[i], "name") == Some("Marker") &&
        info.xmlMarkers[i].name == Get(nodes[i], "text") && Get(nodes[i], "pos") == Some(info.xmlMarkers[i].time.text)
  {
    var nodes := FlMarkerChannels(root);
    var tempoNode := Found(FindPath(root, ["MasterTrack", "Tempo"]));
    var tempo := FloatOf(tempoNode.value.text);
    var signatureNode := Found(FindPath(root, ["MasterTrack", "TimeSignature"]));
    var signature := ShowOpt(Get(signatureNode.value, "Num")) + "/" + ShowOpt(Get(signatureNode.value, "Den"));
    var markers := Traverse(nodes, FlMarkerOf);
    assert tempoNode.Success? && tempo.Success? && signatureNode.Success? && markers.Success?;
    assert FLStudioInfo(path, caps, root).value == XmlInfo("FL Studio", tempo.value, signature, markers.value);
    FlMarkersShape(nodes);
    assert forall i :: 0 <= i < |nodes| ==> nodes[i] in nodes;
  }

  /** Each converted FL Studio marker channel gives one marker, which takes the name from `text` and the time from `pos`. */
  lemma FlMarkersShape(nodes: seq<Element>)
    requires Traverse(nodes, FlMarkerOf).Success?
    ensures var markers := Traverse(nodes, FlMarkerOf).value;
      |markers| == |nodes| &&
      forall i :: 0 <= i < |nodes| ==>
        markers[i].name == Get(nodes[i], "text") && Get(nodes[i], "pos") == Some(markers[i].time.text)
  {
    var markers := Traverse(nodes, FlMarkerOf);
    forall i | 0 <= i < |nodes|
      ensures markers.value[i].name == Get(nodes[i], "text") && Get(nodes[i], "pos") == Some(markers.value[i].time.text)
    {
      assert FlMarkerOf(nodes[i]).Success?;
    }
  }

  /** Each of the six defined names reaches its own extractor, with the file
      contents that extractor reads. */
  lemma DefinedDawsDispatch(path: string, rows: seq<DawRow>, caps: Capabilities, contents: Contents)
    ensures var name := DawName(path, rows);
      var info := DawProjectInfo(path, rows, caps, contents);
      && (name == "Reaper" ==> info == Success(ReaperInfo(path, caps)))
      && (name == "Pro Tools" ==> info == ProToolsInfo(path, caps, contents))
      && (name == "Ableton Live" ==> info == AbletonLiveInfo(path, caps, contents))
      && (name == "Logic Pro X" ==> info == LogicProXInfo(path, caps, contents.plist))
      && (name == "Cubase" ==> info == CubaseInfo(path, caps, contents.xml))
      && (name == "FL Studio" ==> info == FLStudioInfo(path, caps, contents.xml))
  {
  }

  /** A file whose extension no registry row lists is reported as not supported. */
  lemma UnknownIsNotSupported(path: string, rows: seq<DawRow>, caps: Capabilities, contents: Contents)
    requires forall i :: 0 <= i < |rows| ==> !RowMatches(rows[i], LookupExtension(path))
    ensures DawProjectInfo(path, rows, caps, contents) == Success(NotSupported)
  {
    BranchNamesDistinct();
    assert !IsUndefinedDaw("Unknown");
    UnlistedIsNotSupported("Unknown", path, caps, contents);
  }

  /** A name that is neither extracted nor listed among the undefined branches
      falls through to `daw_not_supported`. */
  lemma UnlistedIsNotSupported(name: string, path: string, caps: Capabilities, contents: Contents)
    requires name !in DefinedDaws && !IsUndefinedDaw(name)
    ensures RunHandler(HandlerFor(name), path, caps, contents) == Success(NotSupported)
  {
    UndefinedLookupFinds(name, UndefinedDaws);
  }

  /** The chain sends each undefined branch name to its own callee. */
  lemma HandlerForUndefined(i: nat)
    requires i < |UndefinedDaws|
    ensures HandlerFor(UndefinedDaws[i].0) == UndefinedHandler(UndefinedDaws[i].1)
  {
    var name := UndefinedDaws[i].0;
    assert name !in DefinedDaws && forall j :: 0 <= j < i ==> UndefinedDaws[j].0 != name by {
      BranchNamesDistinct();
    }
    assert UndefinedLookup(name, UndefinedDaws) == Some(UndefinedDaws[i].1) by {
      UndefinedLookupFinds(name, UndefinedDaws);
    }
  }

  /** A name listed among the undefined branches raises `NameError` for the
      function that branch calls, whatever the file and the installed modules. */
  lemma UndefinedRaisesNameError(i: nat, path: string, caps: Capabilities, contents: Contents)
    requires i < |UndefinedDaws|
    ensures RunHandler(HandlerFor(UndefinedDaws[i].0), path, caps, contents) == Failure(NameError(UndefinedDaws[i].1))
  {
    HandlerForUndefined(i);
  }
}
