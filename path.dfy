/**
 * `join` from the front end's path utilities: the first segment loses its
 * trailing separators, every later segment its leading and trailing ones, and
 * the results are joined with one separator. The platform separator is the
 * parameter `sep`, a plain character.
 */
module Path {

  /** `n` separators in a row. */
  function Seps(sep: char, n: nat): (r: string)
    ensures |r| == n && forall i :: 0 <= i < n ==> r[i] == sep
  {
    if n == 0 then [] else Seps(sep, n - 1) + [sep]
  }

  /** `path.replace(/sep+$/, '')`: the path without its trailing run of separators. */
  function StripTrailing(s: string, sep: char): (r: string)
    ensures |r| <= |s| && r == s[..|r|]
    ensures r == [] || r[|r| - 1] != sep
    ensures forall i :: |r| <= i < |s| ==> s[i] == sep
  {
    if s != [] && s[|s| - 1] == sep then StripTrailing(s[..|s| - 1], sep) else s
  }

  /** The path without its leading run of separators. */
  function StripLeading(s: string, sep: char): (r: string)
    ensures |r| <= |s| && r == s[|s| - |r|..]
    ensures r == [] || r[0] != sep
    ensures forall i :: 0 <= i < |s| - |r| ==> s[i] == sep
  {
    if s != [] && s[0] == sep then StripLeading(s[1..], sep) else s
  }

  /** `path.replace(/^sep+|sep+$/g, '')`: both runs removed. */
  function StripBoth(s: string, sep: char): (r: string)
    ensures |r| <= |s|
    ensures r == [] || (r[0] != sep && r[|r| - 1] != sep)
  {
    StripLeading(StripTrailing(s, sep), sep)
  }

  /** Each segment after its stripping: trailing only for the first, both ends for the rest. */
  function Stripped(paths: seq<string>, sep: char): (r: seq<string>)
    ensures |r| == |paths|
    ensures |paths| > 0 ==> r[0] == StripTrailing(paths[0], sep)
    ensures forall i :: 0 < i < |paths| ==> r[i] == StripBoth(paths[i], sep)
  {
    seq(|paths|, i requires 0 <= i < |paths| =>
      if i == 0 then StripTrailing(paths[i], sep) else StripBoth(paths[i], sep))
  }

  /** `parts.join(sep)`: one separator between each two neighbouring parts. */
  function Intercalate(parts: seq<string>, sep: char): (r: string)
    ensures |r| >= |parts| - 1
  {
    if |parts| == 0 then []
    else if |parts| == 1 then parts[0]
    else parts[0] + [sep] + Intercalate(parts[1..], sep)
  }

  /**
   * `join(...paths)`: the segments, stripped of their own separators at the
   * joints, with exactly one separator between each two.
   */
  function Join(paths: seq<string>, sep: char): (r: string)
    ensures |r| >= |paths| - 1
  {
    Intercalate(Stripped(paths, sep), sep)
  }

  /** `s.split(sep)`: the pieces between separators; an empty string is one empty piece. */
  function Split(s: string, sep: char): (r: seq<string>)
    ensures |r| >= 1
  {
    if s == [] then [[]]
    else
      var rest := Split(s[1..], sep);
      if s[0] == sep then [[]] + rest else [[s[0]] + rest[0]] + rest[1..]
  }

  // ---------------------------------------------------------------------------
  // Properties

  /** Stripping the trailing run of a padded path gives back exactly the unpadded path. */
  lemma {:induction false} StripTrailingPadded(core: string, sep: char, n: nat)
    requires core == [] || core[|core| - 1] != sep
    ensures StripTrailing(core + Seps(sep, n), sep) == core
  {
    if n > 0 {
      var s := core + Seps(sep, n);
      assert s[..|s| - 1] == core + Seps(sep, n - 1);
      StripTrailingPadded(core, sep, n - 1);
    } else {
      assert core + Seps(sep, 0) == core;
    }
  }

  lemma {:induction false} StripLeadingPadded(core: string, sep: char, n: nat)
    requires core == [] || core[0] != sep
    ensures StripLeading(Seps(sep, n) + core, sep) == core
  {
    if n > 0 {
      var s := Seps(sep, n) + core;
      assert Seps(sep, n) == [sep] + Seps(sep, n - 1) by { SepsCons(sep, n); }
      assert s[1..] == Seps(sep, n - 1) + core;
      StripLeadingPadded(core, sep, n - 1);
    } else {
      assert Seps(sep, 0) + core == core;
    }
  }

  lemma SepsCons(sep: char, n: nat)
    requires n > 0
    ensures Seps(sep, n) == [sep] + Seps(sep, n - 1)
  {
  }

  /**
   * A later segment made of a core with separators only inside, padded by any
   * number of separators on each side, is stripped to exactly that core:
   * interior separators are kept.
   */
  lemma StripBothPadded(core: string, sep: char, lead: nat, trail: nat)
    requires core != [] && core[0] != sep && core[|core| - 1] != sep
    ensures StripBoth(Seps(sep, lead) + core + Seps(sep, trail), sep) == core
  {
    StripTrailingPadded(Seps(sep, lead) + core, sep, trail);
    StripLeadingPadded(core, sep, lead);
  }

  /** Joining one path only removes its trailing separators; joining nothing gives the empty string. */
  lemma JoinSingle(p: string, sep: char)
    ensures Join([p], sep) == StripTrailing(p, sep)
    ensures Join([], sep) == []
  {
  }

  /** The separator between two segments is exactly one, whatever their own separators were. */
  lemma JoinExample()
    ensures Join(["a/", "/b/"], '/') == "a/b"
  {
    StrippedExample();
    var parts := Stripped(["a/", "/b/"], '/');
    assert parts[1..] == ["b"];
    assert Intercalate(parts, '/') == "a" + ['/'] + "b";
    assert "a" + ['/'] + "b" == "a/b";
  }

  lemma StrippedExample()
    ensures Stripped(["a/", "/b/"], '/') == ["a", "b"]
  {
    assert StripTrailing("a/", '/') == "a" by {
      assert "a/"[..1] == "a";
    }
    assert StripTrailing("/b/", '/') == "/b" by {
      assert "/b/"[..2] == "/b";
    }
    assert StripLeading("/b", '/') == "b" by {
      assert "/b"[1..] == "b";
    }
  }

  lemma {:induction false} SplitNoSep(p: string, sep: char)
    requires sep !in p
    ensures Split(p, sep) == [p]
  {
    if p != [] {
      SplitNoSep(p[1..], sep);
      assert [p[0]] + p[1..] == p;
    }
  }

  lemma {:induction false} SplitAtSep(p: string, t: string, sep: char)
    requires sep !in p
    ensures Split(p + [sep] + t, sep) == [p] + Split(t, sep)
  {
    if p == [] {
      assert p + [sep] + t == [sep] + t;
      assert ([sep] + t)[1..] == t;
    } else {
      assert (p + [sep] + t)[1..] == p[1..] + [sep] + t;
      SplitAtSep(p[1..], t, sep);
      assert [p[0]] + p[1..] == p;
    }
  }

  /** Splitting a join of separator-free parts gives the parts back. */
  lemma {:induction false} SplitIntercalate(parts: seq<string>, sep: char)
    requires |parts| >= 1
    requires forall i :: 0 <= i < |parts| ==> sep !in parts[i]
    ensures Split(Intercalate(parts, sep), sep) == parts
  {
    if |parts| == 1 {
      SplitNoSep(parts[0], sep);
    } else {
      SplitIntercalate(parts[1..], sep);
      SplitAtSep(parts[0], Intercalate(parts[1..], sep), sep);
      assert [parts[0]] + parts[1..] == parts;
    }
  }

  /**
   * The joined path consists of the stripped segments and the separators put
   * between them: when no stripped segment has a separator inside, splitting
   * the result recovers them one for one.
   */
  lemma JoinSplitRoundTrip(paths: seq<string>, sep: char)
    requires |paths| >= 1
    requires forall i :: 0 <= i < |paths| ==> sep !in Stripped(paths, sep)[i]
    ensures Split(Join(paths, sep), sep) == Stripped(paths, sep)
  {
    SplitIntercalate(Stripped(paths, sep), sep);
  }
}
