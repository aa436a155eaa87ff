/** The extension tables and the listing filters of
    get_file_lists_by_type_module.py, and the flattening of the DAW
    configuration table into one list of extensions. */
module FileLists {
  import opened Wrappers
  import opened Seqs
  import opened PyStr
  import opened PyPath
  import opened PyErrors
  import opened FileSystem

  const AudioExtensions: seq<string> :=
    [".wav", ".flac", ".alac", ".aif", ".aiff", ".mp3", ".m4a", ".ogg", ".opus", ".wma"]
  const VideoExtensions: seq<string> :=
    [".mp4", ".avi", ".mov", ".wmv", ".flv", ".mkv", ".mpeg", ".webm", ".3gp", ".m4v"]
  const ScoreExtensions: seq<string> :=
    [".pdf", ".mid", ".sib", ".musicxml", ".musx", ".ly", ".mscz", ".gpx", ".abc"]

  /** `os.path.splitext(name)[1].lower() in table`. */
  predicate HasExtensionIn(name: string, table: seq<string>) {
    Lower(Ext(name)) in table
  }

  /** The comprehension shared by the three `get_list_of_*_files` functions:
      every listing entry (file or directory) whose lowercased last extension is
      in the table, in listing order. */
  function FilesWithExtension(listing: seq<Entry>, table: seq<string>): (r: seq<string>)
    ensures forall f :: f in r <==> f in Names(listing) && HasExtensionIn(f, table)
  {
    Filter(Names(listing), f => HasExtensionIn(f, table))
  }

  /** The filter keeps the listing's order: filtering two listings one after the
      other is filtering their concatenation, and one entry survives alone exactly
      when its extension is in the table. Together these fix the result. */
  lemma FilesWithExtensionOrder(a: seq<Entry>, b: seq<Entry>, table: seq<string>)
    ensures FilesWithExtension(a + b, table) == FilesWithExtension(a, table) + FilesWithExtension(b, table)
  {
    NamesConcat(a, b);
    FilterConcat(Names(a), Names(b), f => HasExtensionIn(f, table));
  }

  lemma FilesWithExtensionSingle(e: Entry, table: seq<string>)
    ensures FilesWithExtension([e], table) == if HasExtensionIn(e.name, table) then [e.name] else []
  {
    assert Names([e]) == [e.name];
  }

  function AudioFiles(listing: seq<Entry>): (r: seq<string>)
    ensures forall f :: f in r <==> f in Names(listing) && Lower(Ext(f)) in AudioExtensions
  {
    FilesWithExtension(listing, AudioExtensions)
  }

  function VideoFiles(listing: seq<Entry>): (r: seq<string>)
    ensures forall f :: f in r <==> f in Names(listing) && Lower(Ext(f)) in VideoExtensions
  {
    FilesWithExtension(listing, VideoExtensions)
  }

  function ScoreFiles(listing: seq<Entry>): (r: seq<string>)
    ensures forall f :: f in r <==> f in Names(listing) && Lower(Ext(f)) in ScoreExtensions
  {
    FilesWithExtension(listing, ScoreExtensions)
  }

  /** Every table entry is a real extension, so a name without one matches none. */
  lemma EmptyInNoTable()
    ensures "" !in AudioExtensions && "" !in VideoExtensions && "" !in ScoreExtensions
  {
  }

  /** The first audio extension in capitals, lowered. */
  lemma LowerWav()
    ensures Lower(".WAV") == AudioExtensions[0]
  {
    var s := ".WAV";
    var l := Lower(s);
    assert l[0] == LowerChar(s[0]) == '.';
    assert l[1] == LowerChar(s[1]) == 'w';
    assert l[2] == LowerChar(s[2]) == 'a';
    assert l[3] == LowerChar(s[3]) == 'v';
  }

  /** Matching ignores case but looks at the last extension only: `SONG.WAV` is
      an audio file, the dotfile `.wav` is not. */
  lemma AudioCaseAndDotfile()
    ensures AudioFiles([File("SONG.WAV"), File(".wav")]) == ["SONG.WAV"]
  {
    var l := [File("SONG.WAV"), File(".wav")];
    assert HasExtensionIn(l[0].name, AudioExtensions) by {
      ExtUpperCase();
      LowerWav();
    }
    assert !HasExtensionIn(l[1].name, AudioExtensions) by {
      ExtDotfile();
      EmptyInNoTable();
    }
    FilesWithExtensionOrder([l[0]], [l[1]], AudioExtensions);
    assert l == [l[0]] + [l[1]];
    FilesWithExtensionSingle(l[0], AudioExtensions);
    FilesWithExtensionSingle(l[1], AudioExtensions);
  }

  /** No extension belongs to two of the tables, so no entry is classified as
      two kinds of media. */
  lemma TablesDisjoint(listing: seq<Entry>)
    ensures forall e :: !(e in AudioExtensions && e in VideoExtensions)
    ensures forall e :: !(e in AudioExtensions && e in ScoreExtensions)
    ensures forall e :: !(e in VideoExtensions && e in ScoreExtensions)
    ensures forall f :: !(f in AudioFiles(listing) && f in VideoFiles(listing))
    ensures forall f :: !(f in AudioFiles(listing) && f in ScoreFiles(listing))
    ensures forall f :: !(f in VideoFiles(listing) && f in ScoreFiles(listing))
  {
  }

  /** `row[1:]`. */
  function Tail(row: seq<string>): seq<string> {
    if row == [] then [] else row[1..]
  }

  /** The extension columns of the data rows, concatenated in row order. */
  function DataColumns(rows: seq<seq<string>>): seq<string> {
    if rows == [] then [] else Tail(rows[0]) + DataColumns(rows[1..])
  }

  lemma {:induction false} DataColumnsConcat(a: seq<seq<string>>, b: seq<seq<string>>)
    ensures DataColumns(a + b) == DataColumns(a) + DataColumns(b)
  {
    if a == [] {
      assert a + b == b;
    } else {
      assert (a + b)[1..] == a[1..] + b && (a + b)[0] == a[0];
      DataColumnsConcat(a[1..], b);
    }
  }

  /** A value is in the flattened list exactly when it is a cell after the
      first column of some data row; nothing is lowercased or dropped. */
  lemma {:induction false} DataColumnsMembership(rows: seq<seq<string>>, x: string)
    ensures x in DataColumns(rows) <==>
      exists i, j :: 0 <= i < |rows| && 1 <= j < |rows[i]| && rows[i][j] == x
  {
    if rows != [] {
      DataColumnsMembership(rows[1..], x);
      if x in Tail(rows[0]) {
        var j :| 0 <= j < |Tail(rows[0])| && Tail(rows[0])[j] == x;
        assert rows[0][j + 1] == x;
      }
      if exists i, j :: 0 <= i < |rows| && 1 <= j < |rows[i]| && rows[i][j] == x {
        var i, j :| 0 <= i < |rows| && 1 <= j < |rows[i]| && rows[i][j] == x;
        if i == 0 {
          assert Tail(rows[0])[j - 1] == x;
        } else {
          assert rows[1..][i - 1][j] == x;
        }
      }
    }
  }

  /** `get_all_DAW_extensions` on the parsed CSV: the header row is skipped
      (`next(reader)` fails on an empty file) and the remaining rows
      contribute everything after their first column. */
  function AllDawExtensions(csvRows: seq<seq<string>>): Result<seq<string>, PyError> {
    if csvRows == [] then Failure(StopIteration) else Success(DataColumns(csvRows[1..]))
  }

  /** The accumulating loop of `get_all_DAW_extensions` (`extensions += row[1:]`). */
  method GetAllDawExtensions(csvRows: seq<seq<string>>) returns (r: Result<seq<string>, PyError>)
    ensures r == AllDawExtensions(csvRows)
  {
    if csvRows == [] {
      return Failure(StopIteration);
    }
    var data := csvRows[1..];
    var extensions: seq<string> := [];
    for i := 0 to |data|
      invariant extensions == DataColumns(data[..i])
    {
      DataColumnsConcat(data[..i], [data[i]]);
      assert data[..i + 1] == data[..i] + [data[i]];
      extensions := extensions + Tail(data[i]);
    }
    assert data[..|data|] == data;
    return Success(extensions);
  }
}
