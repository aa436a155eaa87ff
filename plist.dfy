/** A decoded property list, as `plistlib.load` returns it, and the Python
    operations the Logic Pro X extractor applies to it. */
module Plist {
  import opened Wrappers
  import opened PyErrors

  /** A plist value. `PScalar` stands for the non-container, non-string values
      (integer, real, boolean, date) and carries the text `str()` gives it; a
      dictionary keeps its keys in file order, as a Python dict does. */
  datatype PValue =
    | PString(s: string)
    | PScalar(text: string)
    | PArray(items: seq<PValue>)
    | PDict(entries: seq<PEntry>)

  datatype PEntry = PEntry(key: string, value: PValue)

  /** The decimal digits of a natural number, as `str(i)` writes it. */
  function NatText(n: nat): string {
    if n < 10 then ["0123456789"[n]] else NatText(n / 10) + ["0123456789"[n % 10]]
  }

  function LookupEntry(entries: seq<PEntry>, key: string): Option<PValue> {
    if entries == [] then None
    else if entries[0].key == key then Some(entries[0].value)
    else LookupEntry(entries[1..], key)
  }

  /** `v[key]` for a string key: only a dictionary can be subscripted by a string. */
  function Subscript(v: PValue, key: string): Result<PValue, PyError> {
    match v
    case PDict(entries) =>
      (match LookupEntry(entries, key)
       case Some(x) => Success(x)
       case None => Failure(KeyError(key)))
    case _ => Failure(TypeError)
  }

  /** `v[i]` for an integer index: a list gives its element, a string its
      one-character substring, a dictionary looks `i` up as a key (and plist keys
      are strings, so it is never there), anything else cannot be indexed. */
  function Index(v: PValue, i: nat): Result<PValue, PyError> {
    match v
    case PArray(items) => if i < |items| then Success(items[i]) else Failure(IndexError)
    case PString(s) => if i < |s| then Success(PString([s[i]])) else Failure(IndexError)
    case PDict(_) => Failure(KeyError(NatText(i)))
    case PScalar(_) => Failure(TypeError)
  }

  /** `for x in v`: a list yields its elements, a string its characters, a
      dictionary its keys; a scalar is not iterable. */
  function Iterate(v: PValue): Result<seq<PValue>, PyError> {
    match v
    case PArray(items) => Success(items)
    case PString(s) => Success(seq(|s|, i requires 0 <= i < |s| => PString([s[i]])))
    case PDict(entries) => Success(seq(|entries|, i requires 0 <= i < |entries| => PString(entries[i].key)))
    case PScalar(_) => Failure(TypeError)
  }

  /** `repr(v)`, the form a value takes inside a printed container. */
  function Repr(v: PValue): string {
    match v
    case PString(s) => "'" + s + "'"
    case PScalar(t) => t
    case PArray(items) => "[" + ReprItems(items) + "]"
    case PDict(entries) => "{" + ReprEntries(entries) + "}"
  }

  function ReprItems(items: seq<PValue>): string {
    if items == [] then ""
    else Repr(items[0]) + (if |items| > 1 then ", " else "") + ReprItems(items[1..])
  }

  function ReprEntries(entries: seq<PEntry>): string {
    if entries == [] then ""
    else
      "'" + entries[0].key + "': " + Repr(entries[0].value)
      + (if |entries| > 1 then ", " else "") + ReprEntries(entries[1..])
  }

  /** `str(v)`, what an f-string substitutes: a string is inserted as it is. */
  function Str(v: PValue): string {
    match v
    case PString(s) => s
    case _ => Repr(v)
  }
}
