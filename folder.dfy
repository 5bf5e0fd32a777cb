/** `ASA.AcousticFolder` in its two directory modes: a cursor over the sorted `.wav`
    paths of a folder (flat or recursive) that hands out one file group per path. */
module Folder {
  import opened Common
  import opened Strings
  import opened Ordering
  import opened Disk

  const WavExt: string := ".wav"

  /** Whether the folder's glob yields `p`: a name ending in ".wav" directly in the folder,
      or at any depth below it when the search is recursive. */
  predicate GlobMatch(folder: string, recursive: bool, p: string)
  {
    StartsWith(p, folder + "/")
    && EndsWith(Basename(p), WavExt)
    && (recursive || '/' !in p[|folder| + 1..])
  }

  /** The files the glob yields, as a set: the glob's own order is not specified. */
  function Matches(fs: FileSystem, folder: string, recursive: bool): set<string>
  {
    set p | p in fs.files && GlobMatch(folder, recursive, p)
  }

  /** The companion paths of `wav`, one per extension, in the order of the extensions. */
  function Companions(wav: string, exts: seq<string>): (comps: seq<string>)
    ensures |comps| == |exts|
  {
    if exts == [] then []
    else Companions(wav, exts[..|exts| - 1]) + [Replace(wav, WavExt, exts[|exts| - 1])]
  }

  /** The file group of one `.wav` path. */
  function Group(wav: string, exts: seq<string>): seq<string>
  {
    [wav] + Companions(wav, exts)
  }

  /** Python's reading of a list index: a negative index counts from the end. */
  function PyIndex(k: int, len: nat): int
  {
    if k >= 0 then k else len + k
  }

  /** What one call of `__next__` does: yield the next file group, or raise
      `StopIteration` (`Exhausted`), `IndexError` (`IndexOutOfRange`, a negative cursor
      below minus the length) or `AttributeError` (`NoCursor`). */
  datatype Step = Yield(group: seq<string>) | Raised(error: Failure)

  function StepAt(files: seq<string>, exts: seq<string>, k: int): Step
  {
    if k >= |files| then Raised(Exhausted)
    else if k >= -|files| then Yield(Group(files[PyIndex(k, |files|)], exts))
    else Raised(IndexOutOfRange)
  }

  /** A group is the `.wav` path followed by one companion per extension, in the order
      of the extensions, each made by replacing ".wav" in the whole path. */
  lemma {:induction false} GroupShape(wav: string, exts: seq<string>)
    ensures |Group(wav, exts)| == 1 + |exts| && Group(wav, exts)[0] == wav
    ensures forall i :: 0 <= i < |exts| ==> Group(wav, exts)[i + 1] == Replace(wav, WavExt, exts[i])
  {
    if exts != [] {
      var init := exts[..|exts| - 1];
      GroupShape(wav, init);
      forall i | 0 <= i < |exts| ensures Group(wav, exts)[i + 1] == Replace(wav, WavExt, exts[i]) {
        if i < |exts| - 1 {
          assert Group(wav, exts)[i + 1] == Group(wav, init)[i + 1];
          assert init[i] == exts[i];
        }
      }
    }
  }

  /** For a path `stem + ".wav"` with no other ".wav" in it, the companion for extension
      `e` is `stem + e`. */
  lemma CompanionOfPlainPath(stem: string, exts: seq<string>, i: int)
    requires !Contains(stem, WavExt) && 0 <= i < |exts|
    ensures |Group(stem + WavExt, exts)| == 1 + |exts|
    ensures Group(stem + WavExt, exts)[i + 1] == stem + exts[i]
  {
    GroupShape(stem + WavExt, exts);
    ReplaceWavSuffix(stem, exts[i]);
  }

  /** A fresh iteration yields the group of every listed path, in listing order, and
      then stops; the index -1 gives the group of the last path. */
  lemma {:induction false} StepsOfFreshIteration(files: seq<string>, exts: seq<string>)
    ensures forall i :: 0 <= i < |files| ==> StepAt(files, exts, i) == Yield(Group(files[i], exts))
    ensures StepAt(files, exts, |files|) == Raised(Exhausted)
    ensures files != [] ==> StepAt(files, exts, -1) == Yield(Group(files[|files| - 1], exts))
    ensures files == [] ==> StepAt(files, exts, -1) == Raised(IndexOutOfRange)
  {
  }

  /** The paths of a set in one fixed order. */
  ghost function SetToSeq(s: set<string>): (r: seq<string>)
    ensures multiset(r) == multiset(s)
    decreases |s|
  {
    if s == {} then []
    else
      var x :| x in s;
      assert multiset(s) == multiset(s - {x}) + multiset{x};
      [x] + SetToSeq(s - {x})
  }

  /** `sorted(folder.glob(...))`: the listing `__iter__` builds, which depends only on
      the paths the glob finds and not on the order it finds them in. */
  ghost function Listing(fs: FileSystem, folder: string, recursive: bool): seq<string>
  {
    SortPaths(SetToSeq(Matches(fs, folder, recursive)))
  }

  /** The listing holds each path the glob finds exactly once, in ascending order, and
      it is the only sequence that does: any ascending arrangement of the glob's paths
      is the listing. */
  lemma ListingIsSortedGlob(fs: FileSystem, folder: string, recursive: bool, arranged: seq<string>)
    ensures Ordered(Listing(fs, folder, recursive))
    ensures multiset(Listing(fs, folder, recursive)) == multiset(Matches(fs, folder, recursive))
    ensures |Listing(fs, folder, recursive)| == |Matches(fs, folder, recursive)|
    ensures Ordered(arranged) && multiset(arranged) == multiset(Matches(fs, folder, recursive)) ==>
              arranged == Listing(fs, folder, recursive)
  {
    var listing := Listing(fs, folder, recursive);
    SortPathsSorts(SetToSeq(Matches(fs, folder, recursive)));
    assert |listing| == |multiset(listing)|;
    if Ordered(arranged) && multiset(arranged) == multiset(Matches(fs, folder, recursive)) {
      OrderedUnique(arranged, listing);
    }
  }

  /** The glob's paths one by one, in an order the model leaves open. */
  method Enumerate(all: set<string>) returns (found: seq<string>)
    ensures multiset(found) == multiset(all)
  {
    var rest := all;
    found := [];
    while rest != {}
      invariant rest <= all
      invariant multiset(found) + multiset(rest) == multiset(all)
      decreases |rest|
    {
      var p :| p in rest;
      assert multiset(rest) == multiset(rest - {p}) + multiset{p};
      found := found + [p];
      rest := rest - {p};
    }
  }

  class AcousticFolder {
    const folderPath: string
    const recursive: bool
    var extensions: seq<string>
    /** The cursor and the sorted listing; both exist only once `__iter__` has run. */
    var n: int
    var filesList: seq<string>
    var listed: bool

    constructor (folderPath: string, includeDirs: bool, extensions: seq<string>)
      ensures this.folderPath == folderPath && recursive == includeDirs
      ensures this.extensions == extensions && !listed
    {
      this.folderPath := folderPath;
      recursive := includeDirs;
      this.extensions := extensions;
      n := 0;
      filesList := [];
      listed := false;
    }

    /** `__len__`: the number of paths the glob yields, found without iterating. */
    function Len(fs: FileSystem): (count: nat)
      ensures count == |Listing(fs, folderPath, recursive)|
    {
      ListingIsSortedGlob(fs, folderPath, recursive, []);
      |Matches(fs, folderPath, recursive)|
    }

    /** `__iter__`: take the glob's paths (in whatever order it gives them), sort them and
        put the cursor at 0. */
    method Iter(fs: FileSystem)
      modifies this`n, this`filesList, this`listed
      ensures listed && n == 0
      ensures filesList == Listing(fs, folderPath, recursive)
    {
      var all := Matches(fs, folderPath, recursive);
      var found := Enumerate(all);
      SortPathsSorts(found);
      filesList := SortPaths(found);
      n := 0;
      listed := true;
      ListingIsSortedGlob(fs, folderPath, recursive, filesList);
    }

    /** `__next__`: the group at the cursor, the cursor then moving on by one. */
    method Next() returns (s: Step)
      modifies this`n
      ensures !listed ==> s == Raised(NoCursor)
      ensures listed ==> s == StepAt(filesList, extensions, old(n))
      ensures listed && old(n) >= 0 ==> (s.Yield? <==> old(n) < |filesList|)
      ensures listed && 0 <= old(n) < |filesList| ==> s.group[0] == filesList[old(n)]
      ensures n == if s.Yield? then old(n) + 1 else old(n)
    {
      if !listed {
        return Raised(NoCursor);
      }
      if n < |filesList| {
        if n < -|filesList| {
          return Raised(IndexOutOfRange);
        }
        var wav := filesList[PyIndex(n, |filesList|)];
        var group := [wav];
        var i := 0;
        while i < |extensions|
          invariant 0 <= i <= |extensions|
          invariant group == Group(wav, extensions[..i])
        {
          assert extensions[..i + 1][..i] == extensions[..i];
          group := group + [Replace(wav, WavExt, extensions[i])];
          i := i + 1;
        }
        assert extensions[..i] == extensions;
        n := n + 1;
        s := Yield(group);
      } else {
        s := Raised(Exhausted);
      }
    }

    /** `__getitem__(k)`: restart the iteration, jump the cursor to `k` and step once. */
    method GetItem(fs: FileSystem, k: int) returns (s: Step)
      modifies this`n, this`filesList, this`listed
      ensures listed && filesList == Listing(fs, folderPath, recursive)
      ensures s == StepAt(filesList, extensions, k)
      ensures n == if s.Yield? then k + 1 else k
    {
      Iter(fs);
      n := k;
      s := Next();
    }
  }
}
