/** The order in which `sorted` puts `pathlib.Path` values: Python compares two paths
    by their lists of parts, each part as a `str`. */
module Ordering {
  import opened Strings

  /** Python's `<` on lists of `str`. */
  predicate PartsLess(p: seq<string>, q: seq<string>)
  {
    if p == [] then q != []
    else if q == [] then false
    else StrLess(p[0], q[0]) || (p[0] == q[0] && PartsLess(p[1..], q[1..]))
  }

  /** `Path(a) < Path(b)`: the parts are the pieces between the '/' separators. */
  predicate PathLess(a: string, b: string)
  {
    PartsLess(Split(a, "/"), Split(b, "/"))
  }

  predicate PathLessEq(a: string, b: string)
  {
    a == b || PathLess(a, b)
  }

  /** Ascending as `sorted` leaves it. */
  predicate Ordered(s: seq<string>)
  {
    forall i, j :: 0 <= i < j < |s| ==> PathLessEq(s[i], s[j])
  }

  /** Insert `x` in front of the first element that is not below it. */
  function Insert(x: string, s: seq<string>): seq<string>
  {
    if s == [] then [x]
    else if PathLess(s[0], x) then [s[0]] + Insert(x, s[1..])
    else [x] + s
  }

  /** `sorted(paths)`, as an insertion sort. */
  function SortPaths(paths: seq<string>): seq<string>
  {
    if paths == [] then [] else Insert(paths[0], SortPaths(paths[1..]))
  }

  // ---------------------------------------------------------------------------
  // the order is a strict total order on paths

  lemma {:induction false} PartsLessIrreflexive(p: seq<string>)
    ensures !PartsLess(p, p)
  {
    if p != [] {
      StrLessIrreflexive(p[0]);
      PartsLessIrreflexive(p[1..]);
    }
  }

  lemma {:induction false} PartsLessTransitive(p: seq<string>, q: seq<string>, r: seq<string>)
    requires PartsLess(p, q) && PartsLess(q, r)
    ensures PartsLess(p, r)
  {
    if p != [] && q != [] && r != [] {
      if StrLess(p[0], q[0]) && StrLess(q[0], r[0]) {
        StrLessTransitive(p[0], q[0], r[0]);
      } else if p[0] == q[0] && q[0] == r[0] {
        PartsLessTransitive(p[1..], q[1..], r[1..]);
      }
    }
  }

  lemma {:induction false} PartsLessTotal(p: seq<string>, q: seq<string>)
    ensures p == q || PartsLess(p, q) || PartsLess(q, p)
  {
    if p != [] && q != [] {
      StrLessTotal(p[0], q[0]);
      if p[0] == q[0] {
        PartsLessTotal(p[1..], q[1..]);
        if p[1..] == q[1..] {
          assert p == [p[0]] + p[1..] && q == [q[0]] + q[1..];
        }
      }
    }
  }

  lemma PathLessIrreflexive(a: string)
    ensures !PathLess(a, a)
  {
    PartsLessIrreflexive(Split(a, "/"));
  }

  lemma PathLessTransitive(a: string, b: string, c: string)
    requires PathLess(a, b) && PathLess(b, c)
    ensures PathLess(a, c)
  {
    PartsLessTransitive(Split(a, "/"), Split(b, "/"), Split(c, "/"));
  }

  /** Two different path strings have different parts, so one of them sorts first. */
  lemma PathLessTotal(a: string, b: string)
    ensures a == b || PathLess(a, b) || PathLess(b, a)
  {
    PartsLessTotal(Split(a, "/"), Split(b, "/"));
    JoinSplit(a, "/");
    JoinSplit(b, "/");
  }

  lemma PathLessEqAntisymmetric(a: string, b: string)
    requires PathLessEq(a, b) && PathLessEq(b, a)
    ensures a == b
  {
    if a != b {
      PathLessTransitive(a, b, a);
      PathLessIrreflexive(a);
    }
  }

  lemma PathLessEqTransitive(a: string, b: string, c: string)
    requires PathLessEq(a, b) && PathLessEq(b, c)
    ensures PathLessEq(a, c)
  {
    if a != b && b != c {
      PathLessTransitive(a, b, c);
    }
  }

  // ---------------------------------------------------------------------------
  // sorting

  /** Every element of `s` is at least `x`. */
  predicate AllAtLeast(x: string, s: seq<string>)
  {
    forall i :: 0 <= i < |s| ==> PathLessEq(x, s[i])
  }

  lemma OrderedCons(h: string, t: seq<string>)
    requires AllAtLeast(h, t) && Ordered(t)
    ensures Ordered([h] + t)
  {
    var out := [h] + t;
    forall i, j | 0 <= i < j < |out| ensures PathLessEq(out[i], out[j]) {
      assert out[j] == t[j - 1];
      if i > 0 { assert out[i] == t[i - 1]; }
    }
  }

  lemma {:induction false} InsertMultiset(x: string, s: seq<string>)
    ensures multiset(Insert(x, s)) == multiset(s) + multiset{x}
  {
    if s != [] && PathLess(s[0], x) {
      InsertMultiset(x, s[1..]);
      assert s == [s[0]] + s[1..];
    }
  }

  lemma {:induction false} InsertAtLeast(y: string, x: string, s: seq<string>)
    requires AllAtLeast(y, s) && PathLessEq(y, x)
    ensures AllAtLeast(y, Insert(x, s))
  {
    if s != [] && PathLess(s[0], x) {
      InsertAtLeast(y, x, s[1..]);
      var r := Insert(x, s[1..]);
      assert Insert(x, s) == [s[0]] + r;
    }
  }

  lemma {:induction false} InsertOrdered(x: string, s: seq<string>)
    requires Ordered(s)
    ensures Ordered(Insert(x, s))
  {
    if s == [] {
    } else if PathLess(s[0], x) {
      InsertOrdered(x, s[1..]);
      InsertAtLeast(s[0], x, s[1..]);
      OrderedCons(s[0], Insert(x, s[1..]));
    } else {
      PathLessTotal(s[0], x);
      forall i | 0 <= i < |s| ensures PathLessEq(x, s[i]) {
        if i > 0 { PathLessEqTransitive(x, s[0], s[i]); }
      }
      OrderedCons(x, s);
    }
  }

  /** `sorted` returns the same paths, each as often, in ascending order. */
  lemma {:induction false} SortPathsSorts(paths: seq<string>)
    ensures multiset(SortPaths(paths)) == multiset(paths)
    ensures Ordered(SortPaths(paths))
  {
    if paths != [] {
      SortPathsSorts(paths[1..]);
      InsertMultiset(paths[0], SortPaths(paths[1..]));
      InsertOrdered(paths[0], SortPaths(paths[1..]));
      assert paths == [paths[0]] + paths[1..];
    }
  }

  lemma OrderedTail(a: seq<string>)
    requires Ordered(a) && a != []
    ensures Ordered(a[1..])
  {
    forall i, j | 0 <= i < j < |a[1..]| ensures PathLessEq(a[1..][i], a[1..][j]) {
      assert a[1..][i] == a[i + 1] && a[1..][j] == a[j + 1];
    }
  }

  /** The first element of an ascending sequence is its least element. */
  lemma HeadsAgree(a: seq<string>, b: seq<string>)
    requires Ordered(a) && Ordered(b) && multiset(a) == multiset(b) && a != []
    ensures b != [] && a[0] == b[0]
  {
    assert a[0] in multiset(b);
    assert b[0] in multiset(a);
    var k :| 0 <= k < |b| && b[k] == a[0];
    var m :| 0 <= m < |a| && a[m] == b[0];
    assert PathLessEq(b[0], a[0]) by { if k > 0 { assert PathLessEq(b[0], b[k]); } }
    assert PathLessEq(a[0], b[0]) by { if m > 0 { assert PathLessEq(a[0], a[m]); } }
    PathLessEqAntisymmetric(a[0], b[0]);
  }

  /** Two ascending sequences holding the same paths are the same sequence: the sorted
      listing does not depend on the order in which the directory was read. */
  lemma {:induction false} OrderedUnique(a: seq<string>, b: seq<string>)
    requires Ordered(a) && Ordered(b) && multiset(a) == multiset(b)
    ensures a == b
  {
    if a == [] {
      assert |b| == |multiset(b)| == 0;
    } else {
      HeadsAgree(a, b);
      assert a == [a[0]] + a[1..] && b == [b[0]] + b[1..];
      calc {
        multiset(a[1..]);
        multiset(a) - multiset{a[0]};
        multiset(b) - multiset{b[0]};
        multiset(b[1..]);
      }
      OrderedTail(a);
      OrderedTail(b);
      OrderedUnique(a[1..], b[1..]);
    }
  }
}
