/** `config.py`: layered configuration. Files include files; each is merged over what it includes. */
module Config {
  import opened Wrappers
  import opened Includes

  const EMPTY := Dict(map[])

  // ---- the deep merge -------------------------------------------------------------------------

  function Merge(base: Value, over: Value): Value
    decreases over
  {
    if base.Scalar? || over.Scalar? then over
    else
      Dict(map k | k in base.m.Keys + over.m.Keys ::
        if k !in over.m then base.m[k] else if k !in base.m then over.m[k] else Merge(base.m[k], over.m[k]))
  }

  method DeepMerge(base: map<string, Value>, over: map<string, Value>, ghost whole: Value)
    returns (out: map<string, Value>)
    requires whole == Dict(over)
    ensures Dict(out) == Merge(Dict(base), Dict(over))
    decreases whole
  {
    out := base;
    var left := over.Keys;
    while left != {}
      invariant left <= over.Keys && out.Keys == base.Keys + (over.Keys - left)
      invariant forall k :: k in out.Keys ==>
        out[k] == if k in left || k !in over then base[k] else if k !in base then over[k] else Merge(base[k], over[k])
    {
      var key :| key in left;
      var value := over[key];
      if value.Dict? && key in out && out[key].Dict? {
        var merged := DeepMerge(out[key].m, value.m, value);
        out := out[key := Dict(merged)];
      } else {
        out := out[key := value];
      }
      left := left - {key};
    }
  }

  /** Everything `a` says is overridden in `c`. */
  predicate Covered(a: Value, c: Value)
    decreases a
  {
    a.Dict? && c.Dict? ==> forall k :: k in a.m ==> k in c.m && Covered(a.m[k], c.m[k])
  }

  lemma {:induction false} CoveredExactly(a: Value, c: Value)
    ensures Merge(a, c) == c <==> Covered(a, c)
    decreases a
  {
    if a.Dict? && c.Dict? {
      forall k | k in a.m && k in c.m ensures Merge(a.m[k], c.m[k]) == c.m[k] <==> Covered(a.m[k], c.m[k]) {
        CoveredExactly(a.m[k], c.m[k]);
      }
      var m := Merge(a, c).m;
      if Merge(a, c) == c {
        forall k | k in a.m ensures k in c.m && Covered(a.m[k], c.m[k]) {
          assert k in m && k in c.m;
        }
      }
      if Covered(a, c) {
        assert m.Keys == c.m.Keys && m == c.m;
      }
    }
  }

  /** At no path that all three reach does a scalar stand between two mappings, unless the last covers the first. */
  predicate Associates(a: Value, b: Value, c: Value)
    decreases a
  {
    if a.Dict? && b.Scalar? && c.Dict? then Covered(a, c)
    else a.Dict? && b.Dict? && c.Dict? ==>
      forall k :: k in a.m && k in b.m && k in c.m ==> Associates(a.m[k], b.m[k], c.m[k])
  }

  /** The merge is associative exactly there. */
  lemma {:induction false} MergeAssociates(a: Value, b: Value, c: Value)
    ensures Merge(a, Merge(b, c)) == Merge(Merge(a, b), c) <==> Associates(a, b, c)
    decreases a
  {
    CoveredExactly(a, c);
    if a.Dict? && b.Dict? && c.Dict? {
      var right, left := Merge(a, Merge(b, c)).m, Merge(Merge(a, b), c).m;
      assert right.Keys == left.Keys;
      forall k | k in right
        ensures right[k] == left[k]
          <==> (k in a.m && k in b.m && k in c.m ==> Associates(a.m[k], b.m[k], c.m[k]))
      {
        if k in a.m && k in b.m && k in c.m {
          MergeAssociates(a.m[k], b.m[k], c.m[k]);
        }
      }
      if right == left {
        forall k | k in a.m && k in b.m && k in c.m ensures Associates(a.m[k], b.m[k], c.m[k]) {
          assert k in right;
        }
      }
      if Associates(a, b, c) {
        assert right == left;
      }
    }
  }

  // ---- trees of includes ----------------------------------------------------------------------

  datatype Tree = Node(path: Path, includes: seq<Tree>, own: map<string, Value>)

  datatype Layer = Layer(path: Path, own: map<string, Value>)

  /** Each include is resolved on its own, then merged over the ones before it; the file's own keys come last. */
  function Resolve(t: Tree): (v: Value)
    ensures v.Dict?
  {
    Merge(ResolveAll(t.includes), Dict(t.own))
  }

  function ResolveAll(ts: seq<Tree>): (v: Value)
    ensures v.Dict?
  {
    if ts == [] then EMPTY else Merge(ResolveAll(ts[..|ts| - 1]), Resolve(ts[|ts| - 1]))
  }

  function Layers(t: Tree): seq<Layer> {
    LayersAll(t.includes) + [Layer(t.path, t.own)]
  }

  function LayersAll(ts: seq<Tree>): seq<Layer> {
    if ts == [] then [] else LayersAll(ts[..|ts| - 1]) + Layers(ts[|ts| - 1])
  }

  /** The flat list of layers, merged in order. */
  function Flat(layers: seq<Layer>): (v: Value)
    ensures v.Dict?
  {
    if layers == [] then EMPTY else Merge(Flat(layers[..|layers| - 1]), Dict(layers[|layers| - 1].own))
  }

  /** No path is a mapping in one and something else in the other. */
  predicate Compatible(a: Value, b: Value)
    decreases a
  {
    && (a.Dict? <==> b.Dict?)
    && (a.Dict? && b.Dict? ==> forall k :: k in a.m && k in b.m ==> Compatible(a.m[k], b.m[k]))
  }

  ghost predicate Consistent(layers: seq<Layer>) {
    forall i, j :: 0 <= i < j < |layers| ==> Compatible(Dict(layers[i].own), Dict(layers[j].own))
  }

  lemma MergeEmpty(v: Value)
    requires v.Dict?
    ensures Merge(v, EMPTY) == v && Merge(EMPTY, v) == v
  {
    assert Merge(v, EMPTY).m == v.m;
    assert Merge(EMPTY, v).m == v.m;
  }

  lemma OnLeaf(path: Path, own: map<string, Value>)
    ensures Resolve(Node(path, [], own)) == Dict(own) && Layers(Node(path, [], own)) == [Layer(path, own)]
  {
    MergeEmpty(Dict(own));
  }

  lemma OnOne(path: Path, u: Tree, own: map<string, Value>)
    ensures Resolve(Node(path, [u], own)) == Merge(Resolve(u), Dict(own))
    ensures Layers(Node(path, [u], own)) == Layers(u) + [Layer(path, own)]
  {
    AllOfOne(u);
  }

  lemma AllOfOne(u: Tree)
    ensures ResolveAll([u]) == Resolve(u) && LayersAll([u]) == Layers(u)
  {
    assert [u][..0] == [];
    MergeEmpty(Resolve(u));
    assert ResolveAll([u]) == Merge(EMPTY, Resolve(u));
    assert LayersAll([u]) == [] + Layers(u);
  }

  lemma OnTwo(path: Path, u: Tree, v: Tree)
    ensures Resolve(Node(path, [u, v], map[])) == Merge(Resolve(u), Resolve(v))
    ensures Layers(Node(path, [u, v], map[])) == Layers(u) + Layers(v) + [Layer(path, map[])]
  {
    assert [u, v][..1] == [u];
    AllOfOne(u);
    assert ResolveAll([u, v]) == Merge(ResolveAll([u]), Resolve(v));
    assert LayersAll([u, v]) == LayersAll([u]) + Layers(v);
    MergeEmpty(Merge(Resolve(u), Resolve(v)));
  }

  lemma FlatOfFour(a: Layer, b: Layer, c: Layer, d: Layer)
    requires d.own == map[]
    ensures Flat([a, b, c, d]) == Merge(Merge(Dict(a.own), Dict(b.own)), Dict(c.own))
  {
    assert [a, b, c, d][..3] == [a, b, c] && [a, b, c][..2] == [a, b] && [a, b][..1] == [a] && [a][..0] == [];
    MergeEmpty(Dict(a.own));
    assert Flat([a]) == Merge(EMPTY, Dict(a.own));
    assert Flat([a, b]) == Merge(Dict(a.own), Dict(b.own));
    assert Flat([a, b, c]) == Merge(Flat([a, b]), Dict(c.own));
    assert Flat([a, b, c, d]) == Merge(Flat([a, b, c]), Dict(d.own));
    MergeEmpty(Flat([a, b, c]));
  }

  /** Outside that condition they differ: an include that replaces a mapping by a scalar and that by a mapping again
      leaves no trace of the scalar once it is resolved, so what came before it shows through. */
  lemma ResolveIsNotAlwaysFlat() returns (t: Tree)
    ensures Resolve(t) != Flat(Layers(t))
  {
    var x, y := Dict(map["x" := Scalar("1")]), Dict(map["y" := Scalar("2")]);
    var a, b, c := map["k" := x], map["k" := Scalar("0")], map["k" := y];
    var first, hidden := Node("a", [], a), Node("b", [], b);
    var second := Node("c", [hidden], c);
    t := Node("top", [first, second], map[]);
    OnLeaf("a", a);
    OnLeaf("b", b);
    OnOne("c", hidden, c);
    OnTwo("top", first, second);
    assert Layers(t) == [Layer("a", a), Layer("b", b), Layer("c", c), Layer("top", map[])];
    FlatOfFour(Layer("a", a), Layer("b", b), Layer("c", c), Layer("top", map[]));
    assert Resolve(t).m["k"] == Merge(x, y) && "x" in Merge(x, y).m;
    assert Flat(Layers(t)).m["k"] == y;
  }

  // ---- provenance -----------------------------------------------------------------------------

  /** What a document says of a dotted key: its value, or that a scalar stands at an ancestor, `depth` parts down. */
  datatype Assignment = Defined(value: Value) | Removed(depth: nat)

  datatype Entry = Entry(source: Path, assignment: Assignment)

  function Assigned(v: Value, parts: seq<string>, depth: nat := 0): Option<Assignment>
    requires depth <= |parts|
    decreases |parts| - depth
  {
    if depth == |parts| then Some(Defined(v))
    else if v.Scalar? then Some(Removed(depth))
    else if parts[depth] !in v.m then None
    else Assigned(v.m[parts[depth]], parts, depth + 1)
  }

  method KeyAssignment(data: Value, parts: seq<string>) returns (assignment: Option<Assignment>)
    ensures assignment == Assigned(data, parts)
  {
    var node := data;
    for index := 0 to |parts|
      invariant Assigned(data, parts) == Assigned(node, parts, index)
    {
      if node.Scalar? {
        return Some(Removed(index));
      }
      if parts[index] !in node.m {
        return None;
      }
      node := node.m[parts[index]];
    }
    return Some(Defined(node));
  }

  /** The assignments that contribute, in order; an include that says nothing of the key once resolved has none. */
  function History(t: Tree, parts: seq<string>): seq<Entry> {
    var own := Assigned(Dict(t.own), parts);
    HistoryAll(t.includes, parts) + if own.Some? then [Entry(t.path, own.value)] else []
  }

  function HistoryAll(ts: seq<Tree>, parts: seq<string>): seq<Entry> {
    if ts == [] then []
    else
      var last := ts[|ts| - 1];
      HistoryAll(ts[..|ts| - 1], parts) + if Assigned(Resolve(last), parts).Some? then History(last, parts) else []
  }

  /** Not a mapping: nothing is merged into it. */
  predicate Final(a: Assignment) {
    a.Defined? ==> a.value.Scalar?
  }

  /** What stands at a key, if anything does: a scalar or a mapping. */
  datatype Kind = Leaf(text: string) | Map

  function Spoken(a: Option<Assignment>): Option<Kind> {
    if a.None? || a.value.Removed? then None else Some(if a.value.value.Scalar? then Leaf(a.value.value.text) else Map)
  }

  /** What a merge says of a key: what the later document says, if it says anything final; a mapping if it says a
      mapping; and otherwise nothing or what the earlier one said. */
  lemma {:induction false} MergeAssigns(a: Value, b: Value, parts: seq<string>, depth: nat)
    requires depth <= |parts|
    ensures var merged, over := Assigned(Merge(a, b), parts, depth), Assigned(b, parts, depth);
            && (over.Some? && Final(over.value) ==> merged == over)
            && (over.Some? && !Final(over.value) ==> merged.Some? && merged.value.Defined? && merged.value.value.Dict?)
            && (over.None? ==> merged.None? || merged == Assigned(a, parts, depth))
            && (over.None? && Spoken(Assigned(a, parts, depth)).Some? ==> merged == Assigned(a, parts, depth))
    decreases |parts| - depth
  {
    if depth < |parts| && a.Dict? && b.Dict? {
      var k := parts[depth];
      if k in a.m && k in b.m {
        MergeAssigns(a.m[k], b.m[k], parts, depth + 1);
      }
    }
  }

  /** The last entry of a history stands for a resolved assignment: the same one, or a mapping for a mapping. */
  ghost predicate Speaks(history: seq<Entry>, a: Assignment) {
    && history != []
    && var last := history[|history| - 1].assignment;
       if Final(a) then last == a else last.Defined? && last.value.Dict?
  }

  /** Whatever a key resolves to, the trace ends in it: with exactly that value or removal or, for a mapping, with a
      mapping that contributes. */
  lemma {:induction false} LastEntryDecides(t: Tree, parts: seq<string>)
    ensures var resolved := Assigned(Resolve(t), parts);
            resolved.Some? ==> Speaks(History(t, parts), resolved.value)
    decreases t
  {
    LastOfAll(t.includes, parts);
    MergeAssigns(ResolveAll(t.includes), Dict(t.own), parts, 0);
  }

  lemma {:induction false} LastOfAll(ts: seq<Tree>, parts: seq<string>)
    ensures var resolved := Assigned(ResolveAll(ts), parts);
            resolved.Some? ==> parts == [] || Speaks(HistoryAll(ts, parts), resolved.value)
    decreases ts
  {
    if ts != [] {
      var n := |ts| - 1;
      LastOfAll(ts[..n], parts);
      LastEntryDecides(ts[n], parts);
      MergeAssigns(ResolveAll(ts[..n]), Resolve(ts[n]), parts, 0);
    }
  }

  /** Every entry is what its source file itself says of the key, and its source is one of the layers. */
  lemma {:induction false} EntriesAreOwn(t: Tree, parts: seq<string>, i: nat)
    requires i < |History(t, parts)|
    ensures var e := History(t, parts)[i];
            exists own :: Layer(e.source, own) in Layers(t) && Assigned(Dict(own), parts) == Some(e.assignment)
    decreases t
  {
    if i < |HistoryAll(t.includes, parts)| {
      EntriesOfAllAreOwn(t.includes, parts, i);
      var e := History(t, parts)[i];
      var own :| Layer(e.source, own) in LayersAll(t.includes) && Assigned(Dict(own), parts) == Some(e.assignment);
      assert Layer(e.source, own) in Layers(t);
    } else {
      assert Layer(t.path, t.own) in Layers(t);
    }
  }

  lemma {:induction false} EntriesOfAllAreOwn(ts: seq<Tree>, parts: seq<string>, i: nat)
    requires i < |HistoryAll(ts, parts)|
    ensures var e := HistoryAll(ts, parts)[i];
            exists own :: Layer(e.source, own) in LayersAll(ts) && Assigned(Dict(own), parts) == Some(e.assignment)
    decreases ts
  {
    var n := |ts| - 1;
    var before := HistoryAll(ts[..n], parts);
    if i < |before| {
      EntriesOfAllAreOwn(ts[..n], parts, i);
      var own :| Layer(before[i].source, own) in LayersAll(ts[..n])
        && Assigned(Dict(own), parts) == Some(before[i].assignment);
      assert Layer(before[i].source, own) in LayersAll(ts);
    } else {
      EntriesAreOwn(ts[n], parts, i - |before|);
      var e := History(ts[n], parts)[i - |before|];
      var own :| Layer(e.source, own) in Layers(ts[n]) && Assigned(Dict(own), parts) == Some(e.assignment);
      assert Layer(e.source, own) in LayersAll(ts);
    }
  }

  // ---- when the flat layers are enough ---------------------------------------------------------

  /** The last layer that says anything of a key, and what it says. */
  function LastWord(layers: seq<Layer>, parts: seq<string>): Option<Assignment> {
    if layers == [] then None
    else
      var n := |layers| - 1;
      var word := Assigned(Dict(layers[n].own), parts);
      if word.Some? then word else LastWord(layers[..n], parts)
  }

  lemma {:induction false} LastWordAppend(xs: seq<Layer>, ys: seq<Layer>, parts: seq<string>)
    ensures LastWord(xs + ys, parts) == if LastWord(ys, parts).Some? then LastWord(ys, parts) else LastWord(xs, parts)
  {
    if ys == [] {
      assert xs + ys == xs;
    } else {
      var n := |ys| - 1;
      assert (xs + ys)[..|xs| + n] == xs + ys[..n];
      LastWordAppend(xs, ys[..n], parts);
    }
  }

  /** `v` says what the last word does, unless that is a removal. */
  predicate Heeds(v: Value, word: Option<Assignment>, parts: seq<string>) {
    && (word.None? ==> Assigned(v, parts).None?)
    && (Spoken(word).Some? ==> Spoken(Assigned(v, parts)) == Spoken(word))
  }

  lemma MergeHeeds(a: Value, b: Value, wordA: Option<Assignment>, wordB: Option<Assignment>, parts: seq<string>)
    requires Heeds(a, wordA, parts) && Heeds(b, wordB, parts)
    ensures Heeds(Merge(a, b), if wordB.Some? then wordB else wordA, parts)
  {
    MergeAssigns(a, b, parts, 0);
  }

  lemma {:induction false} TreeHeeds(t: Tree, parts: seq<string>)
    requires parts != []
    ensures Heeds(Resolve(t), LastWord(Layers(t), parts), parts)
    decreases t
  {
    var own := Layer(t.path, t.own);
    TreesHeed(t.includes, parts);
    LastWordAppend(LayersAll(t.includes), [own], parts);
    assert [own][..0] == [];
    MergeHeeds(ResolveAll(t.includes), Dict(t.own), LastWord(LayersAll(t.includes), parts),
               Assigned(Dict(t.own), parts), parts);
  }

  lemma {:induction false} TreesHeed(ts: seq<Tree>, parts: seq<string>)
    requires parts != []
    ensures Heeds(ResolveAll(ts), LastWord(LayersAll(ts), parts), parts)
    decreases ts
  {
    if ts != [] {
      var n := |ts| - 1;
      TreesHeed(ts[..n], parts);
      TreeHeeds(ts[n], parts);
      LastWordAppend(LayersAll(ts[..n]), Layers(ts[n]), parts);
      MergeHeeds(ResolveAll(ts[..n]), Resolve(ts[n]), LastWord(LayersAll(ts[..n]), parts),
                 LastWord(Layers(ts[n]), parts), parts);
    }
  }

  /** The flat fold always heeds the last word: after a removal it has nothing there. */
  lemma {:induction false} FlatHeeds(layers: seq<Layer>, parts: seq<string>)
    requires parts != []
    ensures Spoken(Assigned(Flat(layers), parts)) == Spoken(LastWord(layers, parts))
    ensures LastWord(layers, parts).None? ==> Assigned(Flat(layers), parts).None?
  {
    if layers != [] {
      var n := |layers| - 1;
      FlatHeeds(layers[..n], parts);
      MergeAssigns(Flat(layers[..n]), Dict(layers[n].own), parts, 0);
    }
  }

  lemma {:induction false} Deeper(v: Value, k: string, parts: seq<string>, depth: nat)
    requires depth <= |parts|
    ensures Spoken(Assigned(v, [k] + parts, depth + 1)) == Spoken(Assigned(v, parts, depth))
    decreases |parts| - depth
  {
    if depth < |parts| && v.Dict? && parts[depth] in v.m {
      Deeper(v.m[parts[depth]], k, parts, depth + 1);
    }
  }

  lemma AtKey(v: Value, k: string, parts: seq<string>)
    requires v.Dict?
    ensures Spoken(Assigned(v, [k] + parts)) == if k in v.m then Spoken(Assigned(v.m[k], parts)) else None
  {
    if k in v.m {
      Deeper(v.m[k], k, parts, 0);
    }
  }

  /** Two documents in which the same stands at every key are the same. */
  lemma {:induction false} SameEverywhere(u: Value, v: Value)
    requires forall parts :: Spoken(Assigned(u, parts)) == Spoken(Assigned(v, parts))
    ensures u == v
    decreases u
  {
    assert Spoken(Assigned(u, [])) == Spoken(Assigned(v, []));
    if u.Dict? {
      forall k ensures k in u.m <==> k in v.m {
        AtKey(u, k, []);
        AtKey(v, k, []);
        assert Spoken(Assigned(u, [k] + [])) == Spoken(Assigned(v, [k] + []));
      }
      forall k | k in u.m ensures u.m[k] == v.m[k] {
        forall parts ensures Spoken(Assigned(u.m[k], parts)) == Spoken(Assigned(v.m[k], parts)) {
          AtKey(u, k, parts);
          AtKey(v, k, parts);
          assert Spoken(Assigned(u, [k] + parts)) == Spoken(Assigned(v, [k] + parts));
        }
        SameEverywhere(u.m[k], v.m[k]);
      }
      assert u.m == v.m;
    }
  }

  /** What a document or a tree says of a key: nothing, a scalar `depth` parts down, or what stands there. */
  datatype Word = Silent | Gone(depth: nat) | Stands(kind: Kind)

  function WordOf(v: Value, parts: seq<string>, depth: nat := 0): (word: Word)
    requires depth <= |parts|
  {
    match Assigned(v, parts, depth)
    case None => Silent
    case Some(Removed(d)) => Gone(d)
    case Some(Defined(value)) => Stands(if value.Scalar? then Leaf(value.text) else Map)
  }

  /** The earlier word stays where the later document is silent, but a removal on which a later mapping stands
      (`rebuilt`) leaves no trace. */
  function Then(before: Word, later: Word, rebuilt: bool): Word {
    if later != Silent then later else if before.Gone? && rebuilt then Silent else before
  }

  /** The word of a tree at a key, told from the documents in it: nothing is merged to tell it. */
  function TreeWord(t: Tree, parts: seq<string>): (word: Word)
    ensures word.Gone? ==> word.depth < |parts|
    decreases t
  {
    var before, own := TreesWord(t.includes, parts), Dict(t.own);
    GoneAbove(own, parts, 0);
    Then(before, WordOf(own, parts), before.Gone? && WordOf(own, parts[..before.depth]) == Stands(Map))
  }

  function TreesWord(ts: seq<Tree>, parts: seq<string>): (word: Word)
    ensures word.Gone? ==> word.depth < |parts|
    decreases ts
  {
    if ts == [] then if parts == [] then Stands(Map) else Silent
    else
      var n := |ts| - 1;
      var before := TreesWord(ts[..n], parts);
      Then(before, TreeWord(ts[n], parts), before.Gone? && TreeWord(ts[n], parts[..before.depth]) == Stands(Map))
  }

  lemma {:induction false} GoneAbove(v: Value, parts: seq<string>, depth: nat)
    requires depth <= |parts|
    ensures WordOf(v, parts, depth).Gone? ==> depth <= WordOf(v, parts, depth).depth < |parts|
    decreases |parts| - depth
  {
    if depth < |parts| && v.Dict? && parts[depth] in v.m {
      GoneAbove(v.m[parts[depth]], parts, depth + 1);
    }
  }

  /** The word of a merge is the later one over the earlier one. */
  lemma {:induction false} MergeWord(a: Value, b: Value, parts: seq<string>, depth: nat)
    requires depth <= |parts|
    ensures var before := WordOf(a, parts, depth);
            && (before.Gone? ==> depth <= before.depth < |parts|)
            && WordOf(Merge(a, b), parts, depth)
               == Then(before, WordOf(b, parts, depth),
                       before.Gone? && WordOf(b, parts[..before.depth], depth) == Stands(Map))
    decreases |parts| - depth
  {
    GoneAbove(a, parts, depth);
    if depth < |parts| && a.Dict? && b.Dict? {
      var k := parts[depth];
      if k in a.m {
        GoneAbove(a.m[k], parts, depth + 1);
        if k in b.m {
          MergeWord(a.m[k], b.m[k], parts, depth + 1);
        }
      }
    }
  }

  /** At every key the word told from the documents is what the resolved configuration has there. */
  lemma {:induction false} TreeWordExactly(t: Tree, parts: seq<string>)
    ensures TreeWord(t, parts) == WordOf(Resolve(t), parts)
    decreases t
  {
    TreesWordExactly(t.includes, parts);
    MergeWord(ResolveAll(t.includes), Dict(t.own), parts, 0);
  }

  lemma {:induction false} TreesWordExactly(ts: seq<Tree>, parts: seq<string>)
    ensures TreesWord(ts, parts) == WordOf(ResolveAll(ts), parts)
    decreases ts
  {
    if ts != [] {
      var n := |ts| - 1;
      TreesWordExactly(ts[..n], parts);
      TreeWordExactly(ts[n], parts);
      MergeWord(ResolveAll(ts[..n]), Resolve(ts[n]), parts, 0);
      var before := TreesWord(ts[..n], parts);
      if before.Gone? {
        TreeWordExactly(ts[n], parts[..before.depth]);
      }
    }
  }

  lemma WordsSpoken(v: Value, parts: seq<string>)
    ensures Spoken(Assigned(v, parts)).Some? <==> WordOf(v, parts).Stands?
  {
  }

  /** Something stands at the key in the documents read as a tree, although the last layer to speak of it removed it: an
      include took the removal back where what came before it shows through. */
  predicate Leaks(t: Tree, parts: seq<string>) {
    && parts != [] && TreeWord(t, parts).Stands?
    && LastWord(Layers(t), parts).Some? && LastWord(Layers(t), parts).value.Removed?
  }

  /** Folding the flat layers gives what the include tree resolves to exactly when nothing leaks. Both are told from the
      documents alone. */
  lemma ResolveIsFlatExactly(t: Tree)
    ensures Resolve(t) == Flat(Layers(t)) <==> forall parts :: !Leaks(t, parts)
  {
    hide Resolve, Flat, LastWord, Layers, TreeWord, WordOf, Assigned;
    var resolved, flat := Resolve(t), Flat(Layers(t));
    forall parts ensures TreeWord(t, parts).Stands? <==> Spoken(Assigned(resolved, parts)).Some? {
      TreeWordExactly(t, parts);
      WordsSpoken(resolved, parts);
    }
    if resolved == flat {
      forall parts ensures !Leaks(t, parts) {
        if parts != [] {
          FlatHeeds(Layers(t), parts);
        }
      }
    }
    if forall parts :: !Leaks(t, parts) {
      forall parts ensures Spoken(Assigned(resolved, parts)) == Spoken(Assigned(flat, parts)) {
        if parts == [] {
          BothMappings(resolved, flat);
        } else {
          TreeHeeds(t, parts);
          FlatHeeds(Layers(t), parts);
          assert !Leaks(t, parts);
        }
      }
      SameEverywhere(resolved, flat);
    }
  }

  lemma BothMappings(u: Value, v: Value)
    requires u.Dict? && v.Dict?
    ensures Spoken(Assigned(u, [])) == Spoken(Assigned(v, []))
  {
  }

  lemma {:induction false} LastWordIsOwn(layers: seq<Layer>, parts: seq<string>) returns (i: nat)
    requires LastWord(layers, parts).Some?
    ensures i < |layers| && Assigned(Dict(layers[i].own), parts) == LastWord(layers, parts)
  {
    i := |layers| - 1;
    if Assigned(Dict(layers[i].own), parts).None? {
      i := LastWordIsOwn(layers[..i], parts);
    }
  }

  lemma {:induction false} CompatibleAgree(a: Value, b: Value, parts: seq<string>, depth: nat)
    requires Compatible(a, b) && depth <= |parts|
    ensures var u, v := WordOf(a, parts, depth), WordOf(b, parts, depth);
            !(u.Gone? && v.Stands?) && !(u.Stands? && v.Gone?)
    decreases |parts| - depth
  {
    if depth < |parts| && a.Dict? && parts[depth] in a.m && parts[depth] in b.m {
      CompatibleAgree(a.m[parts[depth]], b.m[parts[depth]], parts, depth + 1);
    }
  }

  /** In particular where no path is a mapping in one layer and something else in another. */
  lemma ResolveIsFlat(t: Tree)
    requires Consistent(Layers(t))
    ensures Resolve(t) == Flat(Layers(t))
  {
    hide Resolve, Flat, LastWord, Layers, TreeWord, Compatible, History;
    ResolveIsFlatExactly(t);
    forall parts ensures !Leaks(t, parts) {
      if Leaks(t, parts) {
        TreeWordExactly(t, parts);
        LastEntryDecides(t, parts);
        var last := |History(t, parts)| - 1;
        EntriesAreOwn(t, parts, last);
        var e := History(t, parts)[last];
        var own :| Layer(e.source, own) in Layers(t) && Assigned(Dict(own), parts) == Some(e.assignment);
        var i := LastWordIsOwn(Layers(t), parts);
        var j :| 0 <= j < |Layers(t)| && Layers(t)[j] == Layer(e.source, own);
        if i < j {
          CompatibleAgree(Dict(Layers(t)[i].own), Dict(own), parts, 0);
        } else if j < i {
          CompatibleAgree(Dict(own), Dict(Layers(t)[i].own), parts, 0);
        }
        assert false;
      }
    }
  }

  // ---- reading the tree -----------------------------------------------------------------------

  datatype Error = Circular(path: Path) | NotFound(path: Path) | NotMapping(path: Path)

  /** The tree of a file and what it includes, or why there is none. Every finite set of files has an answer: a file
      already open above is refused. */
  function Build(g: Graph, path: Path, above: set<Path>): Result<Tree, Error>
    decreases |g.files.Keys - above|, 0
  {
    if path in above then Err(Circular(path))
    else if path !in g.files then Err(NotFound(path))
    else if g.files[path].Malformed? then Err(NotMapping(path))
    else
      var rest := g.files.Keys - (above + {path});
      assert rest < g.files.Keys - above by { assert path in g.files.Keys - above; }
      Smaller(rest, g.files.Keys - above);
      var includes := BuildAll(g, path, g.files[path].includes, above + {path});
      if includes.Err? then Err(includes.error) else Ok(Node(path, includes.value, g.files[path].own))
  }

  function BuildAll(g: Graph, path: Path, entries: seq<string>, above: set<Path>): Result<seq<Tree>, Error>
    decreases |g.files.Keys - above|, |entries|
  {
    if entries == [] then Ok([])
    else
      var n := |entries| - 1;
      var before := BuildAll(g, path, entries[..n], above);
      if before.Err? then before
      else
        var child := g.find(path, entries[n]);
        if child.None? then Err(NotFound(entries[n]))
        else
          var tree := Build(g, child.value, above);
          if tree.Err? then Err(tree.error) else Ok(before.value + [tree.value])
  }

  /** A refusal as circular names a real loop of includes. */
  lemma {:induction false} CircularIsReal(g: Graph, path: Path, above: set<Path>) returns (chain: seq<Path>)
    requires Build(g, path, above).Err? && Build(g, path, above).error.Circular?
    ensures Loops(g, path, above, chain)
    decreases |g.files.Keys - above|, 0
  {
    if path in above {
      chain := [path];
    } else {
      var rest := g.files.Keys - (above + {path});
      assert rest < g.files.Keys - above by { assert path in g.files.Keys - above; }
      Smaller(rest, g.files.Keys - above);
      chain := CircularBelow(g, path, g.files[path].includes, above + {path});
      LoopsFromAbove(g, path, chain[0], above, chain);
      chain := [path] + chain;
    }
  }

  lemma {:induction false} CircularBelow(g: Graph, path: Path, entries: seq<string>, above: set<Path>)
    returns (chain: seq<Path>)
    requires entries <= Entries(g, path)
    requires BuildAll(g, path, entries, above).Err? && BuildAll(g, path, entries, above).error.Circular?
    ensures |chain| > 0 && Links(g, path, chain[0]) && Loops(g, chain[0], above, chain)
    decreases |g.files.Keys - above|, |entries|
  {
    var n := |entries| - 1;
    if BuildAll(g, path, entries[..n], above).Err? {
      chain := CircularBelow(g, path, entries[..n], above);
    } else {
      var child := g.find(path, entries[n]);
      assert entries[n] == Entries(g, path)[n];
      assert Links(g, path, child.value);
      chain := CircularIsReal(g, child.value, above);
    }
  }

  lemma {:induction false} ChildBuilds(g: Graph, path: Path, entries: seq<string>, above: set<Path>, k: nat)
    requires BuildAll(g, path, entries, above).Ok? && k < |entries|
    ensures g.find(path, entries[k]).Some? && Build(g, g.find(path, entries[k]).value, above).Ok?
    decreases |entries|
  {
    if k < |entries| - 1 {
      ChildBuilds(g, path, entries[..|entries| - 1], above, k);
    }
  }

  /** And a tree is built only where no chain of includes loops. */
  lemma {:induction false} BuiltHasNoLoop(g: Graph, path: Path, above: set<Path>, chain: seq<Path>)
    requires Build(g, path, above).Ok?
    ensures !Loops(g, path, above, chain)
    decreases |chain|
  {
    if Loops(g, path, above, chain) && |chain| > 1 {
      var rest := chain[1..];
      assert Links(g, chain[0], chain[1]);
      var k :| 0 <= k < |Entries(g, path)| && g.find(path, Entries(g, path)[k]) == Some(chain[1]);
      ChildBuilds(g, path, Entries(g, path), above + {path}, k);
      LoopsBelow(g, path, above, chain);
      BuiltHasNoLoop(g, chain[1], above + {path}, rest);
    }
  }

  /** A tree that was built follows the files, entry by entry. */
  ghost predicate Mirrors(g: Graph, t: Tree) {
    && t.path in g.files && g.files[t.path].Mapping? && g.files[t.path].own == t.own
    && |t.includes| == |g.files[t.path].includes|
    && forall k :: 0 <= k < |t.includes| ==>
         && g.find(t.path, g.files[t.path].includes[k]) == Some(t.includes[k].path)
         && Mirrors(g, t.includes[k])
  }

  lemma {:induction false} BuildMirrors(g: Graph, path: Path, above: set<Path>)
    requires Build(g, path, above).Ok?
    ensures Build(g, path, above).value.path == path && Mirrors(g, Build(g, path, above).value)
    ensures path !in above
    decreases |g.files.Keys - above|, 0
  {
    var rest := g.files.Keys - (above + {path});
    assert rest < g.files.Keys - above by { assert path in g.files.Keys - above; }
    Smaller(rest, g.files.Keys - above);
    BuildAllMirrors(g, path, g.files[path].includes, above + {path});
  }

  lemma {:induction false} BuildAllMirrors(g: Graph, path: Path, entries: seq<string>, above: set<Path>)
    requires BuildAll(g, path, entries, above).Ok?
    ensures var ts := BuildAll(g, path, entries, above).value;
            && |ts| == |entries|
            && forall k :: 0 <= k < |ts| ==> g.find(path, entries[k]) == Some(ts[k].path) && Mirrors(g, ts[k])
    decreases |g.files.Keys - above|, |entries|
  {
    if entries != [] {
      var n := |entries| - 1;
      BuildAllMirrors(g, path, entries[..n], above);
      BuildMirrors(g, g.find(path, entries[n]).value, above);
    }
  }

  /** `load_config_tree`, appending its layers as it goes and keeping the key's history. */
  class Loader {
    const g: Graph
    const key: seq<string>
    var layers: seq<Layer>

    constructor (g: Graph, key: seq<string>)
      ensures this.g == g && this.key == key && layers == []
    {
      this.g, this.key, layers := g, key, [];
    }

    method Load(path: Path, above: set<Path>) returns (r: Result<Value, Error>, history: seq<Entry>)
      modifies this
      ensures r.Ok? <==> Build(g, path, above).Ok?
      ensures r.Err? ==> r.error == Build(g, path, above).error
      ensures r.Ok? ==>
        var t := Build(g, path, above).value;
        r.value == Resolve(t) && layers == old(layers) + Layers(t) && history == History(t, key)
      decreases |g.files.Keys - above|, 0
    {
      history := [];
      if path in above {
        return Err(Circular(path)), [];
      }
      if path !in g.files {
        return Err(NotFound(path)), [];
      }
      var file := g.files[path];
      if file.Malformed? {
        return Err(NotMapping(path)), [];
      }
      Smaller(g.files.Keys - (above + {path}), g.files.Keys - above);
      var merged := LoadIncludes(path, file.includes, above + {path});
      r, history := merged.0, merged.1;
      if r.Err? {
        return;
      }
      layers := layers + [Layer(path, file.own)];
      var assignment := KeyAssignment(Dict(file.own), key);
      if assignment.Some? {
        history := history + [Entry(path, assignment.value)];
      }
      var out := DeepMerge(r.value.m, file.own, Dict(file.own));
      r := Ok(Dict(out));
    }

    method LoadIncludes(path: Path, entries: seq<string>, above: set<Path>)
      returns (r: (Result<Value, Error>, seq<Entry>))
      modifies this
      ensures r.0.Ok? <==> BuildAll(g, path, entries, above).Ok?
      ensures r.0.Err? ==> r.0.error == BuildAll(g, path, entries, above).error
      ensures r.0.Ok? ==>
        var ts := BuildAll(g, path, entries, above).value;
        r.0.value == ResolveAll(ts) && layers == old(layers) + LayersAll(ts) && r.1 == HistoryAll(ts, key)
      decreases |g.files.Keys - above|, |entries| + 1
    {
      hide BuildAll, Build, Resolve, ResolveAll, Layers, LayersAll, History, HistoryAll, Merge, Assigned;
      var merged: Value := EMPTY;
      var history: seq<Entry> := [];
      NoneBuilt(g, path, entries, above, key);
      for i := 0 to |entries|
        invariant BuildAll(g, path, entries[..i], above).Ok? && merged.Dict?
        invariant var ts := BuildAll(g, path, entries[..i], above).value;
          merged == ResolveAll(ts) && layers == old(layers) + LayersAll(ts) && history == HistoryAll(ts, key)
      {
        var child := g.find(path, entries[i]);
        OneMoreBuilt(g, path, entries, above, i, key);
        if child.None? {
          PrefixFails(g, path, entries, above, i + 1);
          return (Err(NotFound(entries[i])), []);
        }
        var data, childHistory := Load(child.value, above);
        if data.Err? {
          PrefixFails(g, path, entries, above, i + 1);
          return (data, []);
        }
        var assignment := KeyAssignment(data.value, key);
        if assignment.Some? {
          history := history + childHistory;
        }
        var out := DeepMerge(merged.m, data.value.m, data.value);
        merged := Dict(out);
      }
      assert entries[..|entries|] == entries;
      r := (Ok(merged), history);
    }
  }

  lemma NoneBuilt(g: Graph, path: Path, entries: seq<string>, above: set<Path>, key: seq<string>)
    ensures BuildAll(g, path, entries[..0], above) == Ok([])
    ensures ResolveAll([]) == EMPTY && LayersAll([]) == [] && HistoryAll([], key) == []
  {
  }

  lemma OneMoreBuilt(g: Graph, path: Path, entries: seq<string>, above: set<Path>, i: nat, key: seq<string>)
    requires i < |entries| && BuildAll(g, path, entries[..i], above).Ok?
    ensures var next, child := BuildAll(g, path, entries[..i + 1], above), g.find(path, entries[i]);
            var before := BuildAll(g, path, entries[..i], above).value;
            if child.None? then next == Err(NotFound(entries[i]))
            else if Build(g, child.value, above).Err? then next == Err(Build(g, child.value, above).error)
            else
              var tree := Build(g, child.value, above).value;
              && next == Ok(before + [tree])
              && ResolveAll(before + [tree]) == Merge(ResolveAll(before), Resolve(tree))
              && Resolve(tree).Dict? && ResolveAll(before + [tree]).Dict?
              && LayersAll(before + [tree]) == LayersAll(before) + Layers(tree)
              && HistoryAll(before + [tree], key)
                 == HistoryAll(before, key) + if Assigned(Resolve(tree), key).Some? then History(tree, key) else []
  {
    assert entries[..i + 1][..i] == entries[..i];
    var child := g.find(path, entries[i]);
    if child.Some? && Build(g, child.value, above).Ok? {
      var before, tree := BuildAll(g, path, entries[..i], above).value, Build(g, child.value, above).value;
      assert (before + [tree])[..|before|] == before;
    }
  }

  lemma {:induction false} PrefixFails(g: Graph, path: Path, entries: seq<string>, above: set<Path>, i: nat)
    requires i <= |entries| && BuildAll(g, path, entries[..i], above).Err?
    ensures BuildAll(g, path, entries, above) == BuildAll(g, path, entries[..i], above)
    decreases |entries|
  {
    if i < |entries| {
      var n := |entries| - 1;
      assert entries[..n][..i] == entries[..i];
      PrefixFails(g, path, entries[..n], above, i);
    } else {
      assert entries[..i] == entries;
    }
  }
}
