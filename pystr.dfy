/** The Python `str` operations the scanner relies on, with the semantics of
    CPython's `str.lower`, `startswith`, `endswith`, `in`, `split`, `replace`
    and `strip` (restricted to ASCII case mapping and ASCII whitespace). */
module PyStr {
  import opened Wrappers

  function LowerChar(c: char): char {
    if 'A' <= c <= 'Z' then (c as int + 32) as char else c
  }

  /** `s.lower()`: every ASCII capital letter becomes small, nothing else moves. */
  function Lower(s: string): (r: string)
    ensures |r| == |s|
    ensures forall i :: 0 <= i < |s| ==> r[i] == LowerChar(s[i])
  {
    seq(|s|, i requires 0 <= i < |s| => LowerChar(s[i]))
  }

  predicate StartsWith(s: string, prefix: string) {
    |prefix| <= |s| && s[..|prefix|] == prefix
  }

  predicate EndsWith(s: string, suffix: string) {
    |suffix| <= |s| && s[|s| - |suffix|..] == suffix
  }

  /** `sub in s`: some position of `s` starts an occurrence of `sub`. */
  predicate Contains(s: string, sub: string) {
    exists i :: 0 <= i <= |s| && StartsWith(s[i..], sub)
  }

  /** `s.find(sub)`: the first position where `sub` occurs. */
  function FindSub(s: string, sub: string): (r: Option<nat>)
    ensures r.Some? ==> r.value <= |s| && StartsWith(s[r.value..], sub)
    ensures r.Some? ==> forall j :: 0 <= j < r.value ==> !StartsWith(s[j..], sub)
    ensures r.None? <==> !Contains(s, sub)
    decreases |s|
  {
    if StartsWith(s, sub) then Some(0)
    else if s == [] then None
    else
      match FindSub(s[1..], sub)
      case None =>
        assert forall j :: 1 <= j <= |s| ==> s[j..] == s[1..][j - 1..];
        None
      case Some(k) =>
        assert forall j :: 1 <= j <= k + 1 ==> s[j..] == s[1..][j - 1..];
        Some(k + 1)
  }

  /** `s.split(c)` for a one-character separator. */
  function SplitChar(s: string, c: char): (r: seq<string>)
    ensures |r| >= 1
  {
    if s == [] then [""]
    else if s[0] == c then [""] + SplitChar(s[1..], c)
    else
      var rest := SplitChar(s[1..], c);
      [[s[0]] + rest[0]] + rest[1..]
  }

  /** `c.join(pieces)`. */
  function JoinChar(pieces: seq<string>, c: char): string
    requires |pieces| >= 1
  {
    if |pieces| == 1 then pieces[0] else pieces[0] + [c] + JoinChar(pieces[1..], c)
  }

  /** Splitting and re-joining on the same character gives back the string,
      and no piece contains the separator. */
  lemma {:induction false} SplitCharJoin(s: string, c: char)
    ensures JoinChar(SplitChar(s, c), c) == s
    ensures forall p :: p in SplitChar(s, c) ==> c !in p
  {
    SplitCharPieces(s, c);
    if s != [] {
      SplitCharJoin(s[1..], c);
      var rest := SplitChar(s[1..], c);
      if s[0] == c {
        assert SplitChar(s, c)[1..] == rest;
      } else {
        JoinCons(s[0], rest, c);
      }
      assert s == [s[0]] + s[1..];
    }
  }

  /** Prepending a character to the first piece prepends it to the joined text. */
  lemma JoinCons(x: char, pieces: seq<string>, c: char)
    requires |pieces| >= 1
    ensures JoinChar([[x] + pieces[0]] + pieces[1..], c) == [x] + JoinChar(pieces, c)
  {
    var q := [[x] + pieces[0]] + pieces[1..];
    assert q[1..] == pieces[1..];
  }

  lemma {:induction false} SplitCharPieces(s: string, c: char)
    ensures forall p :: p in SplitChar(s, c) ==> c !in p
  {
    if s != [] {
      SplitCharPieces(s[1..], c);
      var rest := SplitChar(s[1..], c);
      if s[0] != c {
        var r := SplitChar(s, c);
        assert r == [[s[0]] + rest[0]] + rest[1..];
        assert forall p :: p in r ==> p == [s[0]] + rest[0] || p in rest;
      }
    }
  }

  /** A string without the separator splits into itself alone. */
  lemma {:induction false} SplitCharFree(a: string, c: char)
    requires c !in a
    ensures SplitChar(a, c) == [a]
  {
    if a != [] {
      SplitCharFree(a[1..], c);
      assert [a[0]] + a[1..] == a;
    }
  }

  /** The first separator ends the first piece. */
  lemma {:induction false} SplitCharFirst(a: string, rest: string, c: char)
    requires c !in a
    ensures SplitChar(a + [c] + rest, c) == [a] + SplitChar(rest, c)
  {
    if a == [] {
      assert a + [c] + rest == [c] + rest;
      assert ([c] + rest)[1..] == rest;
    } else {
      assert (a + [c] + rest)[1..] == a[1..] + [c] + rest;
      SplitCharFirst(a[1..], rest, c);
      assert [a[0]] + a[1..] == a;
    }
  }

  /** `s.split(sep)` for a non-empty separator: the text is cut at the first
      occurrence (`s.find(sep)`) and the scan resumes after it, so occurrences
      are taken left to right without overlapping. */
  function SplitOn(s: string, sep: string): (r: seq<string>)
    requires |sep| > 0
    ensures |r| >= 1
    ensures |r| == 1 <==> !Contains(s, sep)
    decreases |s|
  {
    match FindSub(s, sep)
    case None => [s]
    case Some(k) =>
      assert k + |sep| <= |s|;
      [s[..k]] + SplitOn(s[k + |sep|..], sep)
  }

  /** `s.replace(target, replacement)`: every non-overlapping occurrence of `target`, left to
      right, is replaced; an empty `target` inserts `replacement` around every character. */
  function Replace(s: string, target: string, replacement: string): string
    decreases |s|
  {
    if |target| == 0 then
      (if s == [] then replacement else replacement + [s[0]] + Replace(s[1..], target, replacement))
    else if StartsWith(s, target) then replacement + Replace(s[|target|..], target, replacement)
    else if s == [] then []
    else [s[0]] + Replace(s[1..], target, replacement)
  }

  /** Replacing a character by text that does not contain it removes every
      occurrence of that character. */
  lemma {:induction false} ReplaceCharRemoves(s: string, c: char, replacement: string)
    requires c !in replacement
    ensures c !in Replace(s, [c], replacement)
    decreases |s|
  {
    if s != [] {
      if StartsWith(s, [c]) {
        ReplaceCharRemoves(s[1..], c, replacement);
      } else {
        ReplaceCharRemoves(s[1..], c, replacement);
        assert s[0] != c by { assert s[..1] == [s[0]]; }
      }
    }
  }

  /** Replacing one character by another changes exactly the positions that
      held it and keeps the length. */
  lemma {:induction false} ReplaceCharByChar(s: string, c: char, d: char)
    ensures var r := Replace(s, [c], [d]);
      |r| == |s| && forall i :: 0 <= i < |s| ==> r[i] == (if s[i] == c then d else s[i])
    decreases |s|
  {
    if s != [] {
      ReplaceCharByChar(s[1..], c, d);
      assert StartsWith(s, [c]) <==> s[0] == c by { assert s[..1] == [s[0]]; }
      var t := Replace(s[1..], [c], [d]);
      assert Replace(s, [c], [d]) == [if s[0] == c then d else s[0]] + t;
    }
  }

  /** The characters `str.strip()` removes (ASCII whitespace in CPython's sense). */
  predicate IsSpace(c: char) {
    c == ' ' || (9 <= c as int <= 13) || (28 <= c as int <= 31)
  }

  function LStrip(s: string): (r: string)
    ensures |r| <= |s| && r == s[|s| - |r|..]
    ensures forall i :: 0 <= i < |s| - |r| ==> IsSpace(s[i])
    ensures r == [] || !IsSpace(r[0])
  {
    if s != [] && IsSpace(s[0]) then LStrip(s[1..]) else s
  }

  function RStrip(s: string): (r: string)
    ensures |r| <= |s| && r == s[..|r|]
    ensures forall i :: |r| <= i < |s| ==> IsSpace(s[i])
    ensures r == [] || !IsSpace(r[|r| - 1])
  {
    if s != [] && IsSpace(s[|s| - 1]) then RStrip(s[..|s| - 1]) else s
  }

  /** `s.strip()`. */
  function Strip(s: string): string {
    RStrip(LStrip(s))
  }
}
