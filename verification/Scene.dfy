/** `scene.py`, `scene_files`: a scene file and everything it includes, in merge order. */
module Scene {
  import opened Wrappers
  import opened Includes

  datatype Error = Circular(path: Path) | Refused(path: Path, entry: string) | Unreadable(path: Path)

  /** Every include entry of the file leads to a file that may be included. */
  ghost predicate Whole(g: Graph, path: Path) {
    && path in g.files && g.files[path].Mapping?
    && forall k :: 0 <= k < |Entries(g, path)| ==> g.find(path, Entries(g, path)[k]).Some?
  }

  ghost predicate Reaches(g: Graph, from: Path, to: Path) {
    exists chain :: Chain(g, chain) && chain[0] == from && chain[|chain| - 1] == to
  }

  ghost predicate Before(out: seq<Path>, path: Path, i: nat) {
    exists j :: 0 <= j < i && j < |out| && out[j] == path
  }

  /** Each file once, whole, and after everything it includes. */
  ghost predicate MergeOrder(g: Graph, out: seq<Path>) {
    && (forall i, j :: 0 <= i < j < |out| ==> out[i] != out[j])
    && (forall i :: 0 <= i < |out| ==> Whole(g, out[i]))
    && (forall i, child :: 0 <= i < |out| && Links(g, out[i], child) ==> Before(out, child, i))
  }

  /** A chain of includes from `path` that comes back on itself, or ends at a file that is not whole. */
  ghost predicate Broken(g: Graph, path: Path, above: set<Path>, chain: seq<Path>) {
    || Loops(g, path, above, chain)
    || (Chain(g, chain) && chain[0] == path && !Whole(g, chain[|chain| - 1]))
  }

  lemma BrokenFromAbove(g: Graph, path: Path, child: Path, above: set<Path>, chain: seq<Path>)
    requires Links(g, path, child) && Broken(g, child, above + {path}, chain)
    ensures Broken(g, path, above, [path] + chain)
  {
    if Loops(g, child, above + {path}, chain) {
      LoopsFromAbove(g, path, child, above, chain);
    } else {
      LongerChain(g, path, chain);
    }
  }

  lemma LongerChain(g: Graph, path: Path, chain: seq<Path>)
    requires Chain(g, chain) && Links(g, path, chain[0])
    ensures Chain(g, [path] + chain)
  {
    var longer := [path] + chain;
    forall i | 0 < i < |longer| ensures Links(g, longer[i - 1], longer[i]) {
      if i > 1 {
        assert Links(g, chain[i - 2], chain[i - 1]);
      }
    }
  }

  lemma ReachesBelow(g: Graph, path: Path, child: Path, to: Path)
    requires Links(g, path, child) && Reaches(g, child, to)
    ensures Reaches(g, path, to)
  {
    var chain :| Chain(g, chain) && chain[0] == child && chain[|chain| - 1] == to;
    LongerChain(g, path, chain);
    var longer := [path] + chain;
    assert longer[0] == path && longer[|longer| - 1] == to;
  }

  lemma ReachesSelf(g: Graph, path: Path)
    ensures Reaches(g, path, path)
  {
    assert Chain(g, [path]);
  }

  // ---- what a merge order is worth ------------------------------------------------------------

  /** It is closed under includes, and along a chain one only moves back in it. */
  lemma {:induction false} ChainMovesBack(g: Graph, out: seq<Path>, chain: seq<Path>, i: nat, n: nat) returns (j: nat)
    requires MergeOrder(g, out) && Chain(g, chain) && i < |out| && out[i] == chain[0] && n < |chain|
    ensures j <= i && out[j] == chain[n] && (n > 0 ==> j < i)
    decreases n
  {
    if n == 0 {
      j := i;
    } else {
      var k := ChainMovesBack(g, out, chain, i, n - 1);
      assert Links(g, chain[n - 1], chain[n]);
      assert Before(out, chain[n], k);
      j :| 0 <= j < k && out[j] == chain[n];
    }
  }

  lemma NotBroken(g: Graph, out: seq<Path>, source: Path, chain: seq<Path>)
    requires MergeOrder(g, out) && source in out
    ensures !Broken(g, source, {}, chain)
  {
    if Chain(g, chain) && chain[0] == source {
      var i :| 0 <= i < |out| && out[i] == source;
      var last := |chain| - 1;
      var at := ChainMovesBack(g, out, chain, i, last);
      if chain[last] in chain[..last] {
        var m :| 0 <= m < last && chain[m] == chain[last];
        var first := ChainMovesBack(g, out, chain, i, m);
        var rest := chain[m..];
        assert Chain(g, rest) by {
          forall x | 0 < x < |rest| ensures Links(g, rest[x - 1], rest[x]) {
            assert Links(g, chain[m + x - 1], chain[m + x]);
          }
        }
        var again := ChainMovesBack(g, out, rest, first, last - m);
      }
    }
  }

  /** It holds everything its files reach. */
  lemma HoldsAllReached(g: Graph, out: seq<Path>, source: Path, to: Path)
    requires MergeOrder(g, out) && source in out && Reaches(g, source, to)
    ensures to in out
  {
    var chain :| Chain(g, chain) && chain[0] == source && chain[|chain| - 1] == to;
    var i :| 0 <= i < |out| && out[i] == source;
    var j := ChainMovesBack(g, out, chain, i, |chain| - 1);
  }

  // ---- the walk -------------------------------------------------------------------------------

  /** What a walk of `path` may add: files it reaches, none of which is open above. */
  ghost predicate Grown(g: Graph, path: Path, above: set<Path>, before: seq<Path>, out: seq<Path>) {
    && before <= out && MergeOrder(g, out)
    && forall k :: |before| <= k < |out| ==> Reaches(g, path, out[k]) && out[k] !in above
  }

  lemma GrownBelow(g: Graph, path: Path, child: Path, above: set<Path>, first: seq<Path>, before: seq<Path>,
                   out: seq<Path>)
    requires Links(g, path, child) && Grown(g, path, above, first, before) && Grown(g, child, above, before, out)
    ensures Grown(g, path, above, first, out)
  {
    forall k | |first| <= k < |out| ensures Reaches(g, path, out[k]) && out[k] !in above {
      if k < |before| {
        assert out[k] == before[k];
      } else {
        ReachesBelow(g, path, child, out[k]);
      }
    }
  }

  lemma AppendKeepsOrder(g: Graph, out: seq<Path>, path: Path)
    requires MergeOrder(g, out) && path !in out && Whole(g, path)
    requires forall child :: Links(g, path, child) ==> child in out
    ensures MergeOrder(g, out + [path])
  {
    var all := out + [path];
    forall i, child | 0 <= i < |all| && Links(g, all[i], child) ensures Before(all, child, i) {
      if i < |out| {
        assert Before(out, child, i);
        var j :| 0 <= j < i && j < |out| && out[j] == child;
        assert all[j] == child;
      } else {
        var j :| 0 <= j < |out| && out[j] == child;
        assert all[j] == child;
      }
    }
  }

  class Walker {
    const g: Graph
    var out: seq<Path>

    constructor (g: Graph)
      ensures this.g == g && out == []
    {
      this.g, out := g, [];
    }

    method Walk(path: Path, chain: seq<Path>, ghost above: set<Path>)
      returns (r: Result<(), Error>, ghost broken: seq<Path>)
      requires MergeOrder(g, out) && above == (set p | p in chain)
      modifies this
      ensures r.Ok? ==> Grown(g, path, above, old(out), out) && path in out && path !in above
      ensures r.Ok? && path !in old(out) ==> out[|out| - 1] == path
      ensures r.Err? ==> Broken(g, path, above, broken)
      decreases |g.files.Keys - above|, 0
    {
      broken := [path];
      assert Chain(g, [path]);
      if path in chain {
        return Err(Circular(path)), [path];
      }
      if path !in g.files || g.files[path].Malformed? {
        return Err(Unreadable(path)), [path];
      }
      ReachesSelf(g, path);
      ghost var deeper := above + {path};
      assert deeper == (set p | p in chain + [path]);
      assert path in g.files.Keys - above;
      Smaller(g.files.Keys - deeper, g.files.Keys - above);
      var entries := g.files[path].includes;
      for i := 0 to |entries|
        invariant Grown(g, path, deeper, old(out), out)
        invariant forall k :: 0 <= k < i ==> g.find(path, entries[k]).Some? && g.find(path, entries[k]).value in out
      {
        var included := g.find(path, entries[i]);
        if included.None? {
          assert !Whole(g, path) by { assert Entries(g, path)[i] == entries[i]; }
          return Err(Refused(path, entries[i])), [path];
        }
        assert Links(g, path, included.value) by { assert Entries(g, path)[i] == entries[i]; }
        ghost var before, inner := out, [];
        r, inner := Walk(included.value, chain + [path], deeper);
        if r.Err? {
          BrokenFromAbove(g, path, included.value, above, inner);
          return r, [path] + inner;
        }
        GrownBelow(g, path, included.value, deeper, old(out), before, out);
      }
      assert entries == Entries(g, path);
      if path !in out {
        AppendKeepsOrder(g, out, path);
        out := out + [path];
      }
      r := Ok(());
    }
  }

  /** Whatever the files are, there is an answer. A list is given exactly when no chain of includes loops or ends at a
      file that is missing or refused; then each reachable file is in it once, after all it includes, the scene last. */
  method SceneFiles(g: Graph, source: Path) returns (r: Result<seq<Path>, Error>)
    ensures r.Ok? <==> forall chain :: !Broken(g, source, {}, chain)
    ensures r.Ok? ==>
      && MergeOrder(g, r.value) && (forall p :: p in r.value <==> Reaches(g, source, p))
      && |r.value| > 0 && r.value[|r.value| - 1] == source
  {
    var walker := new Walker(g);
    var walked, broken := walker.Walk(source, [], {});
    if walked.Err? {
      return Err(walked.error);
    }
    var out := walker.out;
    forall chain ensures !Broken(g, source, {}, chain) {
      NotBroken(g, out, source, chain);
    }
    forall p ensures p in out <==> Reaches(g, source, p) {
      if Reaches(g, source, p) {
        HoldsAllReached(g, out, source, p);
      }
    }
    r := Ok(out);
  }
}
