/** A directory listing as data: what `os.listdir` returns for a directory,
    together with the kind of every entry and, for a directory, its own listing. */
module FileSystem {

  datatype Entry = File(name: string) | Dir(name: string, children: seq<Entry>)

  /** `os.listdir(path)`: the names of all entries, files and directories alike. */
  function Names(listing: seq<Entry>): (r: seq<string>)
    ensures |r| == |listing|
    ensures forall i :: 0 <= i < |listing| ==> r[i] == listing[i].name
  {
    seq(|listing|, i requires 0 <= i < |listing| => listing[i].name)
  }

  lemma NamesConcat(a: seq<Entry>, b: seq<Entry>)
    ensures Names(a + b) == Names(a) + Names(b)
  {
  }

  /** The names of the file entries of one listing, in listing order. */
  function FileNames(listing: seq<Entry>): (r: seq<string>)
    ensures |r| <= |listing|
    ensures forall n :: n in r <==> exists i :: 0 <= i < |listing| && listing[i] == File(n)
  {
    if listing == [] then []
    else (if listing[0].File? then [listing[0].name] else []) + FileNames(listing[1..])
  }

  /** The number of files in the whole tree below a listing. */
  function FileCount(listing: seq<Entry>): nat
  {
    if listing == [] then 0
    else
      (match listing[0]
       case File(_) => 1
       case Dir(_, children) => FileCount(children))
      + FileCount(listing[1..])
  }

  lemma {:induction false} FileNamesConcat(a: seq<Entry>, b: seq<Entry>)
    ensures FileNames(a + b) == FileNames(a) + FileNames(b)
  {
    if a == [] {
      assert a + b == b;
    } else {
      assert (a + b)[1..] == a[1..] + b && (a + b)[0] == a[0];
      FileNamesConcat(a[1..], b);
    }
  }

  lemma {:induction false} FileCountConcat(a: seq<Entry>, b: seq<Entry>)
    ensures FileCount(a + b) == FileCount(a) + FileCount(b)
  {
    if a == [] {
      assert a + b == b;
    } else {
      assert (a + b)[1..] == a[1..] + b && (a + b)[0] == a[0];
      FileCountConcat(a[1..], b);
    }
  }
}
