/** Files that include each other: what the configuration loader and the scene lister both walk. */
module Includes {
  import opened Wrappers

  type Path = string

  /** A scalar or list, which a merge replaces whole, or a mapping, which it merges key by key. */
  datatype Value = Scalar(text: string) | Dict(m: map<string, Value>)

  /** A file's include entries and its own keys; anything that is not a mapping is malformed. */
  datatype File = Mapping(includes: seq<string>, own: map<string, Value>) | Malformed

  /** `find` is where an include entry of a file leads, if to a file that may be included. */
  datatype Graph = Graph(files: map<Path, File>, find: (Path, string) -> Option<Path>)

  function Entries(g: Graph, path: Path): seq<string> {
    if path in g.files && g.files[path].Mapping? then g.files[path].includes else []
  }

  ghost predicate Links(g: Graph, from: Path, to: Path) {
    exists k :: 0 <= k < |Entries(g, from)| && g.find(from, Entries(g, from)[k]) == Some(to)
  }

  /** An include chain: each file includes the next. */
  ghost predicate Chain(g: Graph, chain: seq<Path>) {
    |chain| > 0 && forall i :: 0 < i < |chain| ==> Links(g, chain[i - 1], chain[i])
  }

  /** An include chain from `path` that comes back on itself, or to one of `above`. */
  ghost predicate Loops(g: Graph, path: Path, above: set<Path>, chain: seq<Path>) {
    && Chain(g, chain) && chain[0] == path
    && var last := |chain| - 1; chain[last] in above || chain[last] in chain[..last]
  }

  lemma LoopsFromAbove(g: Graph, path: Path, child: Path, above: set<Path>, chain: seq<Path>)
    requires Links(g, path, child) && Loops(g, child, above + {path}, chain)
    ensures Loops(g, path, above, [path] + chain)
  {
    var longer := [path] + chain;
    forall i | 0 < i < |longer| ensures Links(g, longer[i - 1], longer[i]) {
      if i > 1 {
        assert Links(g, chain[i - 2], chain[i - 1]);
      }
    }
    var last := |longer| - 1;
    assert longer[last] == chain[last - 1];
    assert longer[..last] == [path] + chain[..last - 1];
    assert longer[0] == path;
    if chain[last - 1] in chain[..last - 1] {
      assert chain[last - 1] in longer[..last];
    } else if chain[last - 1] !in above {
      assert longer[..last][0] == path;
    }
  }

  lemma LoopsBelow(g: Graph, path: Path, above: set<Path>, chain: seq<Path>)
    requires Loops(g, path, above, chain) && |chain| > 1
    ensures Loops(g, chain[1], above + {path}, chain[1..])
  {
    var rest, last := chain[1..], |chain| - 1;
    forall i | 0 < i < |rest| ensures Links(g, rest[i - 1], rest[i]) {
      assert Links(g, chain[i], chain[i + 1]);
    }
    assert rest[last - 1] == chain[last];
    if chain[last] in chain[..last] && chain[last] != path {
      var i :| 0 <= i < last && chain[i] == chain[last];
      assert rest[..last - 1][i - 1] == chain[last];
    }
  }

  // ---- what the walks' termination rests on ----------------------------------------------------

  lemma Smaller<T>(a: set<T>, b: set<T>)
    requires a < b
    ensures |a| < |b|
  {
    var x :| x in b && x !in a;
    assert a <= b - {x};
    NoLarger(a, b - {x});
  }

  lemma {:induction false} NoLarger<T>(a: set<T>, b: set<T>)
    requires a <= b
    ensures |a| <= |b|
  {
    if a != {} {
      var x :| x in a;
      NoLarger(a - {x}, b - {x});
    }
  }
}
