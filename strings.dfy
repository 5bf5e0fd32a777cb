/** The string operations the driver relies on: `str.replace`, `str.split`,
    `str.join`, `Path.name` and the code-point order of `str`. */
module Strings {

  predicate StartsWith(s: string, prefix: string)
  {
    |prefix| <= |s| && s[..|prefix|] == prefix
  }

  predicate EndsWith(s: string, suffix: string)
  {
    |suffix| <= |s| && s[|s| - |suffix|..] == suffix
  }

  /** True when `pat` occurs somewhere in `s`. */
  predicate Contains(s: string, pat: string)
    requires pat != []
    decreases |s|
  {
    if |s| < |pat| then false
    else StartsWith(s, pat) || Contains(s[1..], pat)
  }

  /** `s.replace(pat, rep)`: every non-overlapping occurrence, scanned left to right. */
  function Replace(s: string, pat: string, rep: string): string
    requires pat != []
    decreases |s|
  {
    if |s| < |pat| then s
    else if StartsWith(s, pat) then rep + Replace(s[|pat|..], pat, rep)
    else [s[0]] + Replace(s[1..], pat, rep)
  }

  /** `s.split(sep)`: the pieces between the occurrences of `sep`. */
  function Split(s: string, sep: string): (parts: seq<string>)
    requires sep != []
    ensures |parts| >= 1
    decreases |s|
  {
    if |s| < |sep| then [s]
    else if StartsWith(s, sep) then [""] + Split(s[|sep|..], sep)
    else
      var t := Split(s[1..], sep);
      [[s[0]] + t[0]] + t[1..]
  }

  /** `sep.join(parts)`. */
  function Join(parts: seq<string>, sep: string): string
  {
    if parts == [] then ""
    else if |parts| == 1 then parts[0]
    else parts[0] + sep + Join(parts[1..], sep)
  }

  /** `Path(s).name`: the text after the last '/'. */
  function Basename(s: string): string
  {
    if s == [] then []
    else if s[|s| - 1] == '/' then []
    else Basename(s[..|s| - 1]) + [s[|s| - 1]]
  }

  /** The base name is the longest slash-free tail of the path. */
  lemma {:induction false} BasenameIsLastPart(s: string)
    ensures var name := Basename(s);
            && |name| <= |s| && name == s[|s| - |name|..]
            && '/' !in name
            && (|name| == |s| || s[|s| - |name| - 1] == '/')
  {
    if s != [] && s[|s| - 1] != '/' {
      var init := s[..|s| - 1];
      BasenameIsLastPart(init);
      var name := Basename(init);
      assert s[|s| - |name| - 1..] == init[|init| - |name|..] + [s[|s| - 1]];
      if |name| < |init| {
        assert s[|s| - |name| - 2] == init[|init| - |name| - 1];
      }
    }
  }

  /** Conversely, a slash-free tail that follows a '/' is exactly the base name. */
  lemma {:induction false} BasenameOfSuffix(s: string, name: string)
    requires |name| < |s| && s[|s| - |name|..] == name && s[|s| - |name| - 1] == '/'
    requires '/' !in name
    ensures Basename(s) == name
    decreases |name|
  {
    if name != [] {
      var k := |name| - 1;
      assert s[|s| - 1] == name[k];
      BasenameOfSuffix(s[..|s| - 1], name[..k]);
      assert name == name[..k] + [name[k]];
    }
  }

  /** Python's `a < b` on `str`: code points compared left to right, a proper prefix first. */
  predicate StrLess(a: string, b: string)
  {
    if a == [] then b != []
    else if b == [] then false
    else a[0] < b[0] || (a[0] == b[0] && StrLess(a[1..], b[1..]))
  }

  // ---------------------------------------------------------------------------
  // split / join / replace

  lemma {:induction false} JoinCons(c: char, t: seq<string>, sep: string)
    requires |t| >= 1
    ensures Join([[c] + t[0]] + t[1..], sep) == [c] + Join(t, sep)
  {
    var parts := [[c] + t[0]] + t[1..];
    assert parts[0] == [c] + t[0];
    assert parts[1..] == t[1..];
    if |t| == 1 {
    } else {
      calc {
        Join(parts, sep);
        parts[0] + sep + Join(parts[1..], sep);
        ([c] + t[0]) + sep + Join(t[1..], sep);
        [c] + (t[0] + sep + Join(t[1..], sep));
        [c] + Join(t, sep);
      }
    }
  }

  /** Splitting and joining back with the same separator gives the original string. */
  lemma {:induction false} JoinSplit(s: string, sep: string)
    requires sep != []
    ensures Join(Split(s, sep), sep) == s
    decreases |s|
  {
    if |s| < |sep| {
    } else if StartsWith(s, sep) {
      var t := Split(s[|sep|..], sep);
      JoinSplit(s[|sep|..], sep);
      assert ([""] + t)[1..] == t;
      calc {
        Join([""] + t, sep);
        "" + sep + Join(t, sep);
        sep + s[|sep|..];
        s;
      }
    } else {
      var t := Split(s[1..], sep);
      JoinSplit(s[1..], sep);
      JoinCons(s[0], t, sep);
      assert [s[0]] + s[1..] == s;
    }
  }

  /** `s.replace(pat, rep) == rep.join(s.split(pat))`: every occurrence is replaced and
      the text between occurrences is kept. */
  lemma {:induction false} ReplaceIsJoinSplit(s: string, pat: string, rep: string)
    requires pat != []
    ensures Replace(s, pat, rep) == Join(Split(s, pat), rep)
    decreases |s|
  {
    if |s| < |pat| {
    } else if StartsWith(s, pat) {
      var t := Split(s[|pat|..], pat);
      ReplaceIsJoinSplit(s[|pat|..], pat, rep);
      assert ([""] + t)[1..] == t;
      assert Join([""] + t, rep) == "" + rep + Join(t, rep);
    } else {
      ReplaceIsJoinSplit(s[1..], pat, rep);
      JoinCons(s[0], Split(s[1..], pat), rep);
    }
  }

  /** The first piece of a split is a prefix of the string. */
  lemma {:induction false} SplitHeadIsPrefix(s: string, sep: string)
    requires sep != []
    ensures StartsWith(s, Split(s, sep)[0])
    decreases |s|
  {
    if |s| < |sep| {
    } else if StartsWith(s, sep) {
    } else {
      SplitHeadIsPrefix(s[1..], sep);
      var t0 := Split(s[1..], sep)[0];
      assert ([s[0]] + t0) == s[..|t0| + 1];
    }
  }

  lemma {:induction false} ContainsPrefixed(c: char, t: string, s: string, pat: string)
    requires pat != []
    requires StartsWith(s, [c] + t) && !StartsWith(s, pat)
    requires !Contains(t, pat)
    ensures !Contains([c] + t, pat)
  {
    var x := [c] + t;
    assert x[1..] == t;
    if |x| >= |pat| {
      assert x[..|pat|] == s[..|pat|];
    }
  }

  /** No piece of a split contains the separator: the split cut at every occurrence. */
  lemma {:induction false} SplitPiecesFree(s: string, sep: string)
    requires sep != []
    ensures forall i :: 0 <= i < |Split(s, sep)| ==> !Contains(Split(s, sep)[i], sep)
    decreases |s|
  {
    if |s| < |sep| {
      assert Split(s, sep) == [s];
    } else if StartsWith(s, sep) {
      SplitPiecesFree(s[|sep|..], sep);
      var t := Split(s[|sep|..], sep);
      assert Split(s, sep) == [""] + t;
    } else {
      SplitPiecesFree(s[1..], sep);
      SplitHeadIsPrefix(s[1..], sep);
      var t := Split(s[1..], sep);
      assert StartsWith(s, [s[0]] + t[0]) by {
        assert s[..|t[0]| + 1] == [s[0]] + s[1..][..|t[0]|];
      }
      ContainsPrefixed(s[0], t[0], s, sep);
      var parts := Split(s, sep);
      assert parts == [[s[0]] + t[0]] + t[1..];
      forall i | 0 <= i < |parts| ensures !Contains(parts[i], sep) {
        if i > 0 { assert parts[i] == t[i]; }
      }
    }
  }

  /** A string without the pattern is left alone by replace. */
  lemma {:induction false} ReplaceAbsent(s: string, pat: string, rep: string)
    requires pat != [] && !Contains(s, pat)
    ensures Replace(s, pat, rep) == s
    decreases |s|
  {
    if |s| >= |pat| {
      ReplaceAbsent(s[1..], pat, rep);
      assert [s[0]] + s[1..] == s;
    }
  }

  /** For a path `stem + ".wav"` whose stem holds no ".wav", replacing ".wav" by an
      extension gives `stem + ext`: ".wav" cannot overlap itself, so no occurrence
      straddles the stem and the suffix. */
  lemma {:induction false} ReplaceWavSuffix(stem: string, ext: string)
    requires !Contains(stem, ".wav")
    ensures Replace(stem + ".wav", ".wav", ext) == stem + ext
    decreases |stem|
  {
    var s := stem + ".wav";
    if stem == [] {
      assert s == ".wav";
      assert s[4..] == [];
    } else {
      assert !StartsWith(s, ".wav") by {
        if |stem| >= 4 {
          assert s[..4] == stem[..4];
        } else {
          assert s[3] == ".wav"[3 - |stem|];
        }
      }
      assert !Contains(stem[1..], ".wav");
      ReplaceWavSuffix(stem[1..], ext);
      assert s[1..] == stem[1..] + ".wav";
      assert [s[0]] + (stem[1..] + ext) == stem + ext;
    }
  }

  // ---------------------------------------------------------------------------
  // the order of `str`

  lemma {:induction false} StrLessIrreflexive(a: string)
    ensures !StrLess(a, a)
  {
    if a != [] {
      StrLessIrreflexive(a[1..]);
    }
  }

  lemma {:induction false} StrLessTransitive(a: string, b: string, c: string)
    requires StrLess(a, b) && StrLess(b, c)
    ensures StrLess(a, c)
  {
    if a != [] && b != [] && c != [] && a[0] == b[0] && b[0] == c[0] {
      StrLessTransitive(a[1..], b[1..], c[1..]);
    }
  }

  lemma {:induction false} StrLessTotal(a: string, b: string)
    ensures a == b || StrLess(a, b) || StrLess(b, a)
  {
    if a != [] && b != [] && a[0] == b[0] {
      StrLessTotal(a[1..], b[1..]);
      if a[1..] == b[1..] {
        assert a == [a[0]] + a[1..] && b == [b[0]] + b[1..];
      }
    }
  }
}
