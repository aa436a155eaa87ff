/** The parts of `posixpath` the scanner uses: `basename`, `splitext` and
    two-argument `join`, on `/`-separated paths. */
module PyPath {
  import opened Wrappers
  import opened PyStr

  /** `s.rfind(c)`: the last position holding `c`. */
  function RFind(s: string, c: char): (r: Option<nat>)
    ensures r.None? <==> c !in s
    ensures r.Some? ==> r.value < |s| && s[r.value] == c && c !in s[r.value + 1..]
  {
    if s == [] then None
    else if s[|s| - 1] == c then Some(|s| - 1)
    else
      var r := RFind(s[..|s| - 1], c);
      assert s == s[..|s| - 1] + [s[|s| - 1]];
      if r.Some? then
        assert s[r.value + 1..] == s[..|s| - 1][r.value + 1..] + [s[|s| - 1]];
        r
      else r
  }

  /** `os.path.basename(p)`: the text after the last `/`. */
  function Basename(p: string): (r: string)
    ensures '/' !in r
    ensures EndsWith(p, r)
    ensures '/' !in p ==> r == p
  {
    if p == [] || p[|p| - 1] == '/' then []
    else Basename(p[..|p| - 1]) + [p[|p| - 1]]
  }

  /** The final component of `dir + "/" + name` is `name` when `name` holds no `/`. */
  lemma {:induction false} BasenameOfChild(dir: string, name: string)
    requires '/' !in name
    ensures Basename(dir + "/" + name) == name
    decreases |name|
  {
    if name == [] {
      assert (dir + "/" + name)[|dir|] == '/';
    } else {
      var init := name[..|name| - 1];
      var c := name[|name| - 1];
      assert '/' !in init && c != '/' by { assert name == init + [c]; }
      BasenameOfChild(dir, init);
      var q := dir + "/" + init;
      assert dir + "/" + name == q + [c] by { assert name == init + [c]; }
      assert Basename(q + [c]) == Basename(q) + [c] by { assert (q + [c])[..|q|] == q; }
    }
  }

  /** The extension `os.path.splitext(p)[1]` returns. It comes from the final
      component only. */
  function Ext(p: string): string {
    NameExt(Basename(p))
  }

  /** The extension of one path component: from its last `.` to the end,
      unless that `.` is preceded by nothing but dots (a dotfile such as `.wav`
      has no extension). */
  function NameExt(b: string): string {
    match RFind(b, '.')
    case None => ""
    case Some(j) => if OnlyDots(b[..j]) then "" else b[j..]
  }

  /** Whether a text consists of dots only (the empty text included). */
  function OnlyDots(s: string): bool {
    s == [] || (s[0] == '.' && OnlyDots(s[1..]))
  }

  lemma {:induction false} OnlyDotsMeans(s: string)
    ensures OnlyDots(s) <==> forall i :: 0 <= i < |s| ==> s[i] == '.'
  {
    if s != [] {
      OnlyDotsMeans(s[1..]);
      assert forall i :: 1 <= i < |s| ==> s[i] == s[1..][i - 1];
    }
  }

  /** `os.path.splitext(p)`. */
  function SplitExt(p: string): (r: (string, string))
  {
    var e := Ext(p);
    ExtShape(p);
    (p[..|p| - |e|], e)
  }

  /** `splitext` is a cut: the root and the extension concatenate to the path,
      and the extension is empty or one dot followed by dot-free, slash-free text
      taken from the final component. */
  lemma ExtShape(p: string)
    ensures var e := Ext(p);
      && EndsWith(p, e)
      && EndsWith(Basename(p), e)
      && (e == "" || (e[0] == '.' && '.' !in e[1..] && '/' !in e && |e| < |Basename(p)|))
  {
    var b := Basename(p);
    NameExtShape(b);
    EndsWithTrans(p, b, NameExt(b));
  }

  lemma NameExtShape(b: string)
    ensures var e := NameExt(b);
      && EndsWith(b, e)
      && (e == "" || (e[0] == '.' && '.' !in e[1..] && |e| < |b| && forall c :: c in e ==> c in b))
  {
    var e := NameExt(b);
    if e != "" {
      var j := RFind(b, '.').value;
      assert e == b[j..];
      assert e[1..] == b[j + 1..];
      assert forall c :: c in e ==> c in b;
    }
  }

  lemma EndsWithTrans(p: string, b: string, e: string)
    requires EndsWith(p, b) && EndsWith(b, e)
    ensures EndsWith(p, e)
  {
    assert p[|p| - |e|..] == b[|b| - |e|..];
  }

  lemma SplitExtRoundTrip(p: string)
    ensures SplitExt(p).0 + SplitExt(p).1 == p
    ensures SplitExt(p).1 == Ext(p)
  {
    var e := Ext(p);
    assert EndsWith(p, e) by { ExtShape(p); }
    CutRoundTrip(p, e);
    assert SplitExt(p) == (p[..|p| - |e|], e);
  }

  /** Cutting a suffix off and putting it back gives the text. */
  lemma CutRoundTrip(p: string, e: string)
    requires EndsWith(p, e)
    ensures p[..|p| - |e|] + e == p
  {
    assert p[..|p| - |e|] + p[|p| - |e|..] == p;
  }

  /** The extension of a path depends only on its final component. */
  lemma ExtOfChild(dir: string, name: string)
    requires '/' !in name
    ensures Ext(dir + "/" + name) == Ext(name)
  {
    BasenameOfChild(dir, name);
  }

  /** `os.path.join(a, b)` for two parts. */
  function Join(a: string, b: string): string {
    if StartsWith(b, "/") then b
    else if a == "" || EndsWith(a, "/") then a + b
    else a + "/" + b
  }

  /** A slash-free name joined under any directory keeps its name as the basename. */
  lemma {:induction false} BasenameOfJoin(a: string, b: string)
    requires '/' !in b
    ensures Basename(Join(a, b)) == b
  {
    if b != [] {
      assert !StartsWith(b, "/") by { assert b[..1] == [b[0]]; }
    }
    if b == [] && (a == "" || EndsWith(a, "/")) {
      if a != "" {
        assert a[|a| - 1] == '/' by { assert a[|a| - 1..] == "/"; }
        assert RFind(a, '/') == Some(|a| - 1);
      }
    } else if a == "" || EndsWith(a, "/") {
      if a != "" {
        assert a[|a| - 1] == '/' by { assert a[|a| - 1..] == "/"; }
        var d := a[..|a| - 1];
        assert a + b == d + "/" + b;
        BasenameOfChild(d, b);
      }
    } else {
      BasenameOfChild(a, b);
    }
  }

  /** For a slash-free name whose last dot is at `j`, the extension starts
      at `j` unless only dots precede it. */
  lemma ExtAt(name: string, j: nat)
    requires '/' !in name && j < |name| && name[j] == '.' && '.' !in name[j + 1..]
    ensures Ext(name) == (if OnlyDots(name[..j]) then "" else name[j..])
  {
    assert Basename(name) == name;
  }

  /** `splitext` keeps the case of the extension; the callers lower it. */
  lemma ExtUpperCase()
    ensures Ext("SONG.WAV") == ".WAV"
  {
    var p := "SONG.WAV";
    assert p[5..] == "WAV";
    ExtAt(p, 4);
    assert p[0] != '.';
    assert p[4..] == ".WAV";
  }

  /** A dotfile has no extension. */
  lemma ExtDotfile()
    ensures Ext(".wav") == ""
  {
    var p := ".wav";
    assert p[1..] == "wav";
    ExtAt(p, 0);
    assert p[..0] == [];
  }

  /** Only the last dot counts. */
  lemma ExtLastDot()
    ensures Ext("take.2.mp3") == ".mp3"
  {
    var p := "take.2.mp3";
    assert p[7..] == "mp3";
    ExtAt(p, 6);
    assert p[0] != '.';
    assert p[6..] == ".mp3";
  }

  /** A path ending in `/` has an empty final component and so no extension. */
  lemma ExtTrailingSlash(p: string)
    requires EndsWith(p, "/")
    ensures Ext(p) == ""
  {
    assert p[|p| - 1] == '/' by { assert p[|p| - 1..] == "/"; }
    assert Basename(p) == "";
  }
}
