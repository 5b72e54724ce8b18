/**
  create_output_file_name in GGSurveyEstimator.py (and createOutputFileName in
  the build/lib copy, which does the same): when the path already exists, the
  first of name + ext, name_1 + ext, name_2 + ext, ... that is not in the
  directory listing, joined to the directory. The filesystem is a value here:
  whether the path exists and the names listed in its directory.
*/
module OutputFileName {
  import PyText

  /** A path split the way os.path.splitext, dirname and basename split it: directory, stem and extension. */
  datatype PathParts = PathParts(dir: string, name: string, ext: string)

  /** Windows os.path.join of a directory and a plain file name: no separator after "", a trailing separator or a bare drive. */
  function Join(dir: string, file: string): (r: string)
    ensures dir == [] ==> r == file
    ensures |r| >= |file| && r[|r| - |file|..] == file
  {
    if dir == [] then file
    else if dir[|dir| - 1] == '\\' || dir[|dir| - 1] == '/' || (|dir| == 2 && dir[1] == ':') then dir + file
    else dir + "\\" + file
  }

  /** The path itself, as the caller gave it. */
  function PathText(path: PathParts): string
  {
    Join(path.dir, path.name + path.ext)
  }

  /** The extension used for the candidates: the path's own unless the caller supplies one. */
  function ChosenExt(path: PathParts, userExt: string): (ext: string)
    ensures |userExt| > 0 ==> ext == userExt
    ensures |userExt| == 0 ==> ext == path.ext
  {
    if |userExt| == 0 then path.ext else userExt
  }

  /** The candidate tried at step i: name + ext first, then "{}_{}{}".format(name, i, ext). */
  function Candidate(name: string, ext: string, i: nat): string
  {
    if i == 0 then name + ext else name + "_" + PyText.NatToString(i) + ext
  }

  /** Different steps try different names, so the search never retries a name. */
  lemma CandidateInjective(name: string, ext: string, i: nat, j: nat)
    requires Candidate(name, ext, i) == Candidate(name, ext, j)
    ensures i == j
  {
    if i != 0 && j != 0 {
      var si, sj := PyText.NatToString(i), PyText.NatToString(j);
      assert |si| == |sj|;
      assert name + "_" + si + ext == (name + "_") + (si + ext);
      assert name + "_" + sj + ext == (name + "_") + (sj + ext);
      PyText.CancelPrefix(name + "_", si + ext, sj + ext);
      PyText.SplitAt(si, ext, sj, ext);
      PyText.NatToStringInjective(i, j);
    }
  }

  /** Candidate i is the one returned: it is free and every earlier candidate is taken. */
  predicate FirstFree(name: string, ext: string, listing: set<string>, i: nat)
  {
    Candidate(name, ext, i) !in listing && forall j :: 0 <= j < i ==> Candidate(name, ext, j) in listing
  }

  /** The candidates tried before step n. */
  function Tried(name: string, ext: string, n: nat): set<string>
  {
    set j | 0 <= j < n :: Candidate(name, ext, j)
  }

  /** The n candidates before step n are n different names. */
  lemma {:induction false} TriedSize(name: string, ext: string, n: nat)
    ensures |Tried(name, ext, n)| == n
  {
    if n > 0 {
      TriedSize(name, ext, n - 1);
      var c := Candidate(name, ext, n - 1);
      assert Tried(name, ext, n) == Tried(name, ext, n - 1) + {c};
      if c in Tried(name, ext, n - 1) {
        var j :| 0 <= j < n - 1 && Candidate(name, ext, j) == c;
        CandidateInjective(name, ext, j, n - 1);
      }
    }
  }

  lemma {:induction false} SubsetSize<T>(a: set<T>, b: set<T>)
    requires a <= b
    ensures |a| <= |b|
  {
    if a != {} {
      var x :| x in a;
      SubsetSize(a - {x}, b - {x});
    }
  }

  /** At most one step is the first free one. */
  lemma FirstFreeUnique(name: string, ext: string, listing: set<string>, i: nat, j: nat)
    requires FirstFree(name, ext, listing, i) && FirstFree(name, ext, listing, j)
    ensures i == j
  {
  }

  /** When the first n candidates are all taken, the directory has at least n entries. */
  lemma TakenBound(name: string, ext: string, listing: set<string>, n: nat)
    requires forall j :: 0 <= j < n ==> Candidate(name, ext, j) in listing
    ensures n <= |listing|
  {
    TriedSize(name, ext, n);
    SubsetSize(Tried(name, ext, n), listing);
  }

  /** The search stops after at most as many steps as the directory has entries. */
  lemma FirstFreeBound(name: string, ext: string, listing: set<string>, i: nat)
    requires FirstFree(name, ext, listing, i)
    ensures i <= |listing|
  {
    TakenBound(name, ext, listing, i);
  }

  /**
    create_output_file_name: a path that does not exist comes back unchanged; otherwise the first free
    candidate in the path's directory, which is never a name already listed there.
  */
  method CreateOutputFileName(path: PathParts, userExt: string, pathExists: bool, listing: set<string>)
    returns (r: string)
    ensures !pathExists ==> r == PathText(path)
    ensures pathExists ==> exists i: nat :: FirstFree(path.name, ChosenExt(path, userExt), listing, i) &&
                                           r == Join(path.dir, Candidate(path.name, ChosenExt(path, userExt), i))
  {
    if !pathExists {
      return Join(path.dir, path.name + path.ext);
    }
    var ext := if |userExt| == 0 then path.ext else userExt;
    var candidate := path.name + ext;
    var index := 1;
    while candidate in listing
      invariant 1 <= index <= |listing| + 1 && candidate == Candidate(path.name, ext, index - 1)
      invariant forall j :: 0 <= j < index - 1 ==> Candidate(path.name, ext, j) in listing
      decreases |listing| + 1 - index
    {
      TakenBound(path.name, ext, listing, index);
      candidate := path.name + "_" + PyText.NatToString(index) + ext;
      index := index + 1;
    }
    assert ext == ChosenExt(path, userExt) && FirstFree(path.name, ext, listing, index - 1);
    r := Join(path.dir, candidate);
  }
}
