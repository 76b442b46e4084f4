// The four scenes `test_drawer_layer_scoring` scores with the layer judge
// (report_analysis/Auto_extract_report_data_batch.py): two objects per
// layer, one per layer, two per layer plus an untracked `table` item in the
// low drawer, and everything on the table. Each scene is an instance of a
// shape proved for any names with the right properties.
module LayerExamples {
  import opened Text
  import opened SceneAnalysis
  import opened ReportScene
  import opened LayerJudge

  /** Items written one edge each, as `item(rel)loc`. */
  function EdgesOf(items: seq<string>, rels: seq<string>, locs: seq<string>): (es: seq<string>)
    requires |rels| == |items| && |locs| == |items|
    ensures |es| == |items|
  {
    if items == [] then []
    else
      var n := |items| - 1;
      EdgesOf(items[..n], rels[..n], locs[..n]) + [items[n] + (rels[n] + locs[n])]
  }

  predicate WellFormed(items: seq<string>, rels: seq<string>, locs: seq<string>)
  {
    |rels| == |items| && |locs| == |items| &&
    (forall x :: x in items ==> x != [] && AllChars(x, IsWordChar)) &&
    (forall r :: r in rels ==> IsRelation(r)) &&
    (forall l :: l in locs ==> l != [] && AllChars(l, IsPathChar)) &&
    (forall i, j :: 0 <= i < j < |items| ==> items[i] != items[j])
  }

  lemma EdgeMatchPlain(item: string, rel: string, loc: string)
    requires item != [] && AllChars(item, IsWordChar)
    requires IsRelation(rel)
    requires loc != [] && AllChars(loc, IsPathChar)
    ensures EdgeMatch(item + (rel + loc)) == Some((item, loc))
  {
    EdgeMatchOf(item, rel, loc, []);
    assert loc + [] == loc;
  }

  /** In a scene written one edge per distinct item, each item is at the location its own edge names. */
  lemma {:induction false} LocationAt(items: seq<string>, rels: seq<string>, locs: seq<string>, i: nat)
    requires WellFormed(items, rels, locs) && i < |items|
    ensures LastLocation(EdgesOf(items, rels, locs), items[i]) == Some(locs[i])
  {
    var n := |items| - 1;
    var es := EdgesOf(items, rels, locs);
    assert items[n] in items && rels[n] in rels && locs[n] in locs;
    EdgeMatchPlain(items[n], rels[n], locs[n]);
    assert es[n] == items[n] + (rels[n] + locs[n]);
    if i < n {
      assert es[..n] == EdgesOf(items[..n], rels[..n], locs[..n]);
      assert forall x :: x in items[..n] ==> x in items;
      assert forall r :: r in rels[..n] ==> r in rels;
      assert forall l :: l in locs[..n] ==> l in locs;
      assert WellFormed(items[..n], rels[..n], locs[..n]);
      LocationAt(items[..n], rels[..n], locs[..n], i);
      assert items[..n][i] == items[i] && locs[..n][i] == locs[i];
    }
  }

  /** The unrelated count of an edge list written one edge per item. */
  lemma {:induction false} UnrelatedOf(items: seq<string>, rels: seq<string>, locs: seq<string>, allowed: set<string>, d: string)
    requires WellFormed(items, rels, locs)
    ensures Unrelated(EdgesOf(items, rels, locs), allowed, d) == Strays(items, locs, allowed, d)
  {
    if items != [] {
      var n := |items| - 1;
      var es := EdgesOf(items, rels, locs);
      assert items[n] in items && rels[n] in rels && locs[n] in locs;
      EdgeMatchPlain(items[n], rels[n], locs[n]);
      assert es[n] == items[n] + (rels[n] + locs[n]);
      assert es[..n] == EdgesOf(items[..n], rels[..n], locs[..n]);
      assert forall x :: x in items[..n] ==> x in items;
      assert forall r :: r in rels[..n] ==> r in rels;
      assert forall l :: l in locs[..n] ==> l in locs;
      assert WellFormed(items[..n], rels[..n], locs[..n]);
      UnrelatedOf(items[..n], rels[..n], locs[..n], allowed, d);
    }
  }

  /** Items outside `allowed` listed at `d`. */
  function Strays(items: seq<string>, locs: seq<string>, allowed: set<string>, d: string): nat
    requires |locs| == |items|
  {
    if items == [] then 0
    else
      var n := |items| - 1;
      Strays(items[..n], locs[..n], allowed, d) + (if locs[n] == d && items[n] !in allowed then 1 else 0)
  }

  /** The nodes satisfying `p`, in order. */
  function Filter(nodes: seq<string>, p: string -> bool): seq<string>
  {
    if nodes == [] then []
    else Filter(nodes[..|nodes| - 1], p) + (if p(nodes[|nodes| - 1]) then [nodes[|nodes| - 1]] else [])
  }

  lemma FilterSnoc(nodes: seq<string>, p: string -> bool, n: string)
    ensures Filter(nodes + [n], p) == Filter(nodes, p) + (if p(n) then [n] else [])
  {
    assert (nodes + [n])[..|nodes|] == nodes;
  }

  /** Over distinct nodes, the dict keys are just the qualifying nodes. */
  lemma {:induction false} KeysOfDistinct(nodes: seq<string>, p: string -> bool)
    requires Distinct(nodes)
    ensures Keys(nodes, p) == Filter(nodes, p)
  {
    if nodes != [] {
      var init := nodes[..|nodes| - 1];
      assert Distinct(init);
      KeysOfDistinct(init, p);
    }
  }

  /** 1 when `x` is at `d` in `g`. */
  function At(g: Graph, x: string, d: string): nat
  {
    if Location(g, x) == Some(d) then 1 else 0
  }

  lemma PlacedSnoc(g: Graph, objs: seq<string>, x: string, d: string)
    ensures PlacedAt(g, objs + [x], d) == PlacedAt(g, objs, d) + At(g, x, d)
  {
    assert (objs + [x])[..|objs|] == objs;
  }

  /** `Placed` over three objects, written out. */
  lemma PlacedThree(g: Graph, x0: string, x1: string, x2: string, d: string)
    ensures PlacedAt(g, [x0, x1, x2], d) == At(g, x0, d) + At(g, x1, d) + At(g, x2, d)
  {
    PlacedSnoc(g, [], x0, d);
    assert [] + [x0] == [x0];
    PlacedSnoc(g, [x0], x1, d);
    assert [x0] + [x1] == [x0, x1];
    PlacedSnoc(g, [x0, x1], x2, d);
    assert [x0, x1] + [x2] == [x0, x1, x2];
  }

  /** `Placed` over six objects, written out. */
  lemma PlacedSix(g: Graph, x0: string, x1: string, x2: string, x3: string, x4: string, x5: string, d: string)
    ensures PlacedAt(g, [x0, x1, x2, x3, x4, x5], d) ==
            At(g, x0, d) + At(g, x1, d) + At(g, x2, d) + At(g, x3, d) + At(g, x4, d) + At(g, x5, d)
  {
    PlacedThree(g, x0, x1, x2, d);
    PlacedSnoc(g, [x0, x1, x2], x3, d);
    assert [x0, x1, x2] + [x3] == [x0, x1, x2, x3];
    PlacedSnoc(g, [x0, x1, x2, x3], x4, d);
    assert [x0, x1, x2, x3] + [x4] == [x0, x1, x2, x3, x4];
    PlacedSnoc(g, [x0, x1, x2, x3, x4], x5, d);
    assert [x0, x1, x2, x3, x4] + [x5] == [x0, x1, x2, x3, x4, x5];
  }

  /** With every item tracked, no edge brings an unrelated item. */
  lemma NoneUnrelated(g: Graph, items: seq<string>, rels: seq<string>, locs: seq<string>, d: string)
    requires WellFormed(items, rels, locs) && g.edges == EdgesOf(items, rels, locs)
    requires forall x :: x in items ==> x in Objects(g)
    ensures Unrelated(g.edges, Allowed(g), d) == 0
  {
    UnrelatedOf(items, rels, locs, Allowed(g), d);
    StraysAllowed(items, locs, Allowed(g), d);
  }

  lemma {:induction false} StraysAllowed(items: seq<string>, locs: seq<string>, allowed: set<string>, d: string)
    requires |locs| == |items|
    requires forall x :: x in items ==> x in allowed
    ensures Strays(items, locs, allowed, d) == 0
  {
    if items != [] {
      var n := |items| - 1;
      assert items[n] in items;
      assert forall x :: x in items[..n] ==> x in items;
      StraysAllowed(items[..n], locs[..n], allowed, d);
    }
  }

  lemma {:induction false} StraysOne(items: seq<string>, locs: seq<string>, allowed: set<string>, d: string, k: nat)
    requires |locs| == |items| && k < |items|
    requires items[k] !in allowed
    requires forall i :: 0 <= i < |items| && i != k ==> items[i] in allowed
    ensures Strays(items, locs, allowed, d) == if locs[k] == d then 1 else 0
  {
    var n := |items| - 1;
    if k == n {
      assert forall x :: x in items[..n] ==> x in allowed by {
        assert forall i :: 0 <= i < n ==> items[..n][i] == items[i];
      }
      StraysAllowed(items[..n], locs[..n], allowed, d);
    } else {
      StraysOne(items[..n], locs[..n], allowed, d, k);
    }
  }

  lemma DrawersDiffer()
    ensures LowDrawer != MiddleDrawer && LowDrawer != HighDrawer && MiddleDrawer != HighDrawer
  {
    LayersDistinct();
    assert Layers[0] != Layers[1] && Layers[0] != Layers[2] && Layers[1] != Layers[2];
  }

  lemma ScoreOverThree(g: Graph)
    ensures ScoreOver(g, Layers) == LayerOf(g, LowDrawer) + LayerOf(g, MiddleDrawer) + LayerOf(g, HighDrawer)
  {
    var l1, l2 := Layers[..1], Layers[..2];
    assert l2[..1] == l1 && l1[..0] == [] && l1[0] == LowDrawer && l2[1] == MiddleDrawer && Layers[2] == HighDrawer;
    assert Layers[..2] == l2;
    assert ScoreOver(g, l1) == LayerOf(g, LowDrawer);
    assert ScoreOver(g, l2) == ScoreOver(g, l1) + LayerOf(g, MiddleDrawer);
  }

  lemma LayerPaths()
    ensures forall d :: d in Layers ==> d != [] && AllChars(d, IsPathChar)
  {
    PathNames();
  }

  // ----- the names of the scenes -----

  lemma CubeNamed(colour: string, digits: string)
    ensures IsCubeName(colour + "_cube" + digits) && !IsMugName(colour + "_cube" + digits)
  {
    OccursInConcat(colour, "_cube", digits);
  }

  lemma MugNamed(colour: string, digits: string)
    requires 'c' !in colour && 'c' !in digits
    ensures IsMugName(colour + "_mug" + digits)
  {
    var n := colour + "_mug" + digits;
    assert n == (colour + "_") + "mug" + digits;
    OccursInConcat(colour + "_", "mug", digits);
    ContainsNeedsChar(n, "_cube", 'c');
  }

  lemma TableUntracked()
    ensures !IsCubeName("table") && !IsMugName("table")
  {
    ContainsNeedsChar("table", "_cube", 'c');
    ContainsNeedsChar("table", "mug", 'm');
  }

  const RedCube1 := "red_cube1"
  const RedCube2 := "red_cube2"
  const BlueMug1 := "blue_mug1"
  const BlueMug2 := "blue_mug2"
  const YellowCube3 := "yellow_cube3"
  const YellowMug3 := "yellow_mug3"

  lemma Names()
    ensures IsCubeName(RedCube1) && !IsMugName(RedCube1)
    ensures IsCubeName(RedCube2) && !IsMugName(RedCube2)
    ensures IsCubeName(YellowCube3) && !IsMugName(YellowCube3)
    ensures !IsCubeName(BlueMug1) && IsMugName(BlueMug1)
    ensures !IsCubeName(BlueMug2) && IsMugName(BlueMug2)
    ensures !IsCubeName(YellowMug3) && IsMugName(YellowMug3)
  {
    CubeNamed("red", "1");
    CubeNamed("red", "2");
    CubeNamed("yellow", "3");
    MugNamed("blue", "1");
    MugNamed("blue", "2");
    MugNamed("yellow", "3");
    assert RedCube1 == "red" + "_cube" + "1" && RedCube2 == "red" + "_cube" + "2";
    assert YellowCube3 == "yellow" + "_cube" + "3";
    assert BlueMug1 == "blue" + "_mug" + "1" && BlueMug2 == "blue" + "_mug" + "2";
    assert YellowMug3 == "yellow" + "_mug" + "3";
  }

  lemma WordNames()
    ensures AllChars(RedCube1, IsWordChar) && AllChars(RedCube2, IsWordChar) && AllChars(BlueMug1, IsWordChar)
    ensures AllChars(BlueMug2, IsWordChar) && AllChars(YellowCube3, IsWordChar) && AllChars(YellowMug3, IsWordChar)
  {
    assert forall c :: c in RedCube1 ==> IsWordChar(c);
    assert forall c :: c in RedCube2 ==> IsWordChar(c);
    assert forall c :: c in BlueMug1 ==> IsWordChar(c);
    assert forall c :: c in BlueMug2 ==> IsWordChar(c);
    assert forall c :: c in YellowCube3 ==> IsWordChar(c);
    assert forall c :: c in YellowMug3 ==> IsWordChar(c);
  }

  lemma WordTable()
    ensures AllChars(Table, IsWordChar) && AllChars(Table, IsPathChar) && Table != []
  {
    assert forall c :: c in Table ==> IsWordChar(c);
  }

  lemma PathNames()
    ensures AllChars(LowDrawer, IsPathChar) && AllChars(MiddleDrawer, IsPathChar) && AllChars(HighDrawer, IsPathChar)
  {
    assert forall c :: c in LowDrawer ==> IsPathChar(c);
    assert forall c :: c in MiddleDrawer ==> IsPathChar(c);
    assert forall c :: c in HighDrawer ==> IsPathChar(c);
  }

  // ----- the shapes of the scenes -----

  /** A node name the edge pattern accepts as an item. */
  predicate Named(x: string) { x != [] && AllChars(x, IsWordChar) }

  /** The six-object nodes of tests 1, 3 and 4: two cubes, two mugs, a cube and a mug. */
  function SixNodes(c1: string, c2: string, c3: string, m1: string, m2: string, m3: string): seq<string>
  {
    [c1, c2, m1, m2, c3, m3]
  }

  predicate SixNamed(c1: string, c2: string, c3: string, m1: string, m2: string, m3: string)
  {
    Named(c1) && Named(c2) && Named(c3) && Named(m1) && Named(m2) && Named(m3) &&
    IsCubeName(c1) && IsCubeName(c2) && IsCubeName(c3) &&
    IsMugName(m1) && IsMugName(m2) && IsMugName(m3) &&
    Distinct(SixNodes(c1, c2, c3, m1, m2, m3))
  }

  /** `Filter` keeping the first, second and fifth of six nodes: where the cubes sit. */
  lemma FilterCubes(x0: string, x1: string, x2: string, x3: string, x4: string, x5: string, p: string -> bool)
    requires p(x0) && p(x1) && !p(x2) && !p(x3) && p(x4) && !p(x5)
    ensures Filter([x0, x1, x2, x3, x4, x5], p) == [x0, x1, x4]
  {
    FilterSnoc([], p, x0);
    assert [] + [x0] == [x0];
    FilterSnoc([x0], p, x1);
    assert [x0] + [x1] == [x0, x1];
    FilterSnoc([x0, x1], p, x2);
    assert [x0, x1] + [x2] == [x0, x1, x2];
    FilterSnoc([x0, x1, x2], p, x3);
    assert [x0, x1, x2] + [x3] == [x0, x1, x2, x3];
    FilterSnoc([x0, x1, x2, x3], p, x4);
    assert [x0, x1, x2, x3] + [x4] == [x0, x1, x2, x3, x4];
    FilterSnoc([x0, x1, x2, x3, x4], p, x5);
    assert [x0, x1, x2, x3, x4] + [x5] == [x0, x1, x2, x3, x4, x5];
  }

  /** `Filter` keeping the third, fourth and sixth of six nodes: where the mugs sit. */
  lemma FilterMugs(x0: string, x1: string, x2: string, x3: string, x4: string, x5: string, p: string -> bool)
    requires !p(x0) && !p(x1) && p(x2) && p(x3) && !p(x4) && p(x5)
    ensures Filter([x0, x1, x2, x3, x4, x5], p) == [x2, x3, x5]
  {
    FilterSnoc([], p, x0);
    assert [] + [x0] == [x0];
    FilterSnoc([x0], p, x1);
    assert [x0] + [x1] == [x0, x1];
    FilterSnoc([x0, x1], p, x2);
    assert [x0, x1] + [x2] == [x0, x1, x2];
    FilterSnoc([x0, x1, x2], p, x3);
    assert [x0, x1, x2] + [x3] == [x0, x1, x2, x3];
    FilterSnoc([x0, x1, x2, x3], p, x4);
    assert [x0, x1, x2, x3] + [x4] == [x0, x1, x2, x3, x4];
    FilterSnoc([x0, x1, x2, x3, x4], p, x5);
    assert [x0, x1, x2, x3, x4] + [x5] == [x0, x1, x2, x3, x4, x5];
  }

  /** The cubes are tracked first, then the mugs, each in node order. */
  lemma SixKeys(c1: string, c2: string, c3: string, m1: string, m2: string, m3: string)
    requires SixNamed(c1, c2, c3, m1, m2, m3)
    ensures Keys(SixNodes(c1, c2, c3, m1, m2, m3), IsCubeName) == [c1, c2, c3]
    ensures Keys(SixNodes(c1, c2, c3, m1, m2, m3), IsMugName) == [m1, m2, m3]
  {
    KeysOfDistinct(SixNodes(c1, c2, c3, m1, m2, m3), IsCubeName);
    KeysOfDistinct(SixNodes(c1, c2, c3, m1, m2, m3), IsMugName);
    FilterCubes(c1, c2, m1, m2, c3, m3, IsCubeName);
    FilterMugs(c1, c2, m1, m2, c3, m3, IsMugName);
  }

  /** `LocationAt`, read off scene `g`. */
  lemma LocatedAt(g: Graph, items: seq<string>, rels: seq<string>, locs: seq<string>, i: nat, x: string)
    requires WellFormed(items, rels, locs) && g.edges == EdgesOf(items, rels, locs)
    requires i < |items| && items[i] == x
    ensures Location(g, x) == Some(locs[i])
  {
    LocationAt(items, rels, locs, i);
  }

  /** The six objects, each located by its edge. */
  lemma SixLocated(g: Graph, c1: string, c2: string, c3: string, m1: string, m2: string, m3: string, rels: seq<string>, locs: seq<string>)
    requires WellFormed(SixNodes(c1, c2, c3, m1, m2, m3), rels, locs)
    requires g.edges == EdgesOf(SixNodes(c1, c2, c3, m1, m2, m3), rels, locs)
    ensures Location(g, c1) == Some(locs[0]) && Location(g, c2) == Some(locs[1])
    ensures Location(g, m1) == Some(locs[2]) && Location(g, m2) == Some(locs[3])
    ensures Location(g, c3) == Some(locs[4]) && Location(g, m3) == Some(locs[5])
  {
    var n := SixNodes(c1, c2, c3, m1, m2, m3);
    LocatedAt(g, n, rels, locs, 0, c1);
    LocatedAt(g, n, rels, locs, 1, c2);
    LocatedAt(g, n, rels, locs, 2, m1);
    LocatedAt(g, n, rels, locs, 3, m2);
    LocatedAt(g, n, rels, locs, 4, c3);
    LocatedAt(g, n, rels, locs, 5, m3);
  }

  /** Every one of the six names is accepted by the edge pattern. */
  lemma SixItems(c1: string, c2: string, c3: string, m1: string, m2: string, m3: string)
    requires SixNamed(c1, c2, c3, m1, m2, m3)
    ensures forall x :: x in SixNodes(c1, c2, c3, m1, m2, m3) ==> x != [] && AllChars(x, IsWordChar)
  {
  }

  /** A layer's score from its counts of tracked objects and unrelated items. */
  lemma LayerOfCounts(g: Graph, d: string, p: nat, u: nat)
    requires PlacedAt(g, Objects(g), d) == p && Unrelated(g.edges, Allowed(g), d) == u
    ensures LayerOf(g, d) == LayerScore(p, u)
  {
  }

  /** The three layers' scores add up to the total. */
  lemma ScoreOfLayers(g: Graph, s0: nat, s1: nat, s2: nat)
    requires LayerOf(g, LowDrawer) == s0 && LayerOf(g, MiddleDrawer) == s1 && LayerOf(g, HighDrawer) == s2
    ensures ScoreOver(g, Layers) == s0 + s1 + s2
  {
    ScoreOverThree(g);
  }

  /** A total short of 6 is a failure, reported with that score. */
  lemma ShortVerdict(g: Graph, s: nat)
    requires ScoreOver(g, Layers) == s && s < 6
    ensures ByLayers(g) == Judgement(false, Progress(Whole(s), 6, None), Some(LayersShort(s)))
  {
  }

  /** A total of 6 with every tracked object counted in some layer is a success. */
  lemma FullVerdict(g: Graph)
    requires ScoreOver(g, Layers) == 6 && PlacedOver(g, Objects(g), Layers) == |Objects(g)|
    ensures ByLayers(g) == Judgement(true, Progress(Whole(6), 6, None), None)
  {
  }

  /** Two tracked objects in every layer, nothing unrelated, six tracked in all: 6 out of 6, a success. */
  lemma FullLayers(g: Graph)
    requires PlacedAt(g, Objects(g), LowDrawer) == 2 && Unrelated(g.edges, Allowed(g), LowDrawer) == 0
    requires PlacedAt(g, Objects(g), MiddleDrawer) == 2 && Unrelated(g.edges, Allowed(g), MiddleDrawer) == 0
    requires PlacedAt(g, Objects(g), HighDrawer) == 2 && Unrelated(g.edges, Allowed(g), HighDrawer) == 0
    requires |Objects(g)| == 6
    ensures ByLayers(g) == Judgement(true, Progress(Whole(6), 6, None), None)
  {
    LayerOfCounts(g, LowDrawer, 2, 0);
    LayerOfCounts(g, MiddleDrawer, 2, 0);
    LayerOfCounts(g, HighDrawer, 2, 0);
    ScoreOfLayers(g, 2, 2, 2);
    PlacedOverLayers(g, Objects(g));
    assert Layers[0] == LowDrawer && Layers[1] == MiddleDrawer && Layers[2] == HighDrawer;
    FullVerdict(g);
  }

  /** One tracked object in every layer and nothing unrelated: 3 out of 6. */
  lemma LayersHalfFull(g: Graph)
    requires PlacedAt(g, Objects(g), LowDrawer) == 1 && Unrelated(g.edges, Allowed(g), LowDrawer) == 0
    requires PlacedAt(g, Objects(g), MiddleDrawer) == 1 && Unrelated(g.edges, Allowed(g), MiddleDrawer) == 0
    requires PlacedAt(g, Objects(g), HighDrawer) == 1 && Unrelated(g.edges, Allowed(g), HighDrawer) == 0
    ensures ByLayers(g) == Judgement(false, Progress(Whole(3), 6, None), Some(LayersShort(3)))
  {
    LayerOfCounts(g, LowDrawer, 1, 0);
    LayerOfCounts(g, MiddleDrawer, 1, 0);
    LayerOfCounts(g, HighDrawer, 1, 0);
    ScoreOfLayers(g, 1, 1, 1);
    ShortVerdict(g, 3);
  }

  /** Two tracked objects in every layer but an unrelated item in the low one: 4 out of 6. */
  lemma LowLayerSpoiled(g: Graph)
    requires PlacedAt(g, Objects(g), LowDrawer) == 2 && Unrelated(g.edges, Allowed(g), LowDrawer) == 1
    requires PlacedAt(g, Objects(g), MiddleDrawer) == 2 && Unrelated(g.edges, Allowed(g), MiddleDrawer) == 0
    requires PlacedAt(g, Objects(g), HighDrawer) == 2 && Unrelated(g.edges, Allowed(g), HighDrawer) == 0
    ensures ByLayers(g) == Judgement(false, Progress(Whole(4), 6, None), Some(LayersShort(4)))
  {
    LayerOfCounts(g, LowDrawer, 2, 1);
    LayerOfCounts(g, MiddleDrawer, 2, 0);
    LayerOfCounts(g, HighDrawer, 2, 0);
    ScoreOfLayers(g, 0, 2, 2);
    ShortVerdict(g, 4);
  }

  /** No tracked object in any layer and nothing unrelated: 0 out of 6. */
  lemma EmptyLayers(g: Graph)
    requires PlacedAt(g, Objects(g), LowDrawer) == 0 && Unrelated(g.edges, Allowed(g), LowDrawer) == 0
    requires PlacedAt(g, Objects(g), MiddleDrawer) == 0 && Unrelated(g.edges, Allowed(g), MiddleDrawer) == 0
    requires PlacedAt(g, Objects(g), HighDrawer) == 0 && Unrelated(g.edges, Allowed(g), HighDrawer) == 0
    ensures ByLayers(g) == Judgement(false, Progress(Whole(0), 6, None), Some(LayersShort(0)))
  {
    LayerOfCounts(g, LowDrawer, 0, 0);
    LayerOfCounts(g, MiddleDrawer, 0, 0);
    LayerOfCounts(g, HighDrawer, 0, 0);
    ScoreOfLayers(g, 0, 0, 0);
    ShortVerdict(g, 0);
  }

  /** Over the six distinct names, the tracked objects are the cubes, then the mugs. */
  lemma SixObjects(g: Graph, c1: string, c2: string, c3: string, m1: string, m2: string, m3: string)
    requires SixNamed(c1, c2, c3, m1, m2, m3) && g.nodes == SixNodes(c1, c2, c3, m1, m2, m3)
    ensures Objects(g) == [c1, c2, c3, m1, m2, m3]
  {
    SixKeys(c1, c2, c3, m1, m2, m3);
    ObjectsOfSix(g, c1, c2, c3, m1, m2, m3);
  }

  /** `Objects` from the two key lists, for three cubes and three mugs. */
  lemma ObjectsOfSix(g: Graph, c1: string, c2: string, c3: string, m1: string, m2: string, m3: string)
    requires Keys(g.nodes, IsCubeName) == [c1, c2, c3] && Keys(g.nodes, IsMugName) == [m1, m2, m3]
    ensures Objects(g) == [c1, c2, c3, m1, m2, m3]
  {
    assert [c1, c2, c3] + [m1, m2, m3] == [c1, c2, c3, m1, m2, m3];
  }

  /** `Objects` from the two key lists, for two cubes and a mug. */
  lemma ObjectsOfThree(g: Graph, c1: string, c3: string, m1: string)
    requires Keys(g.nodes, IsCubeName) == [c1, c3] && Keys(g.nodes, IsMugName) == [m1]
    ensures Objects(g) == [c1, c3, m1]
  {
    assert [c1, c3] + [m1] == [c1, c3, m1];
  }

  // Test 1: two objects in each layer.

  const Ins6 := ["(in)", "(in)", "(in)", "(in)", "(in)", "(in)"]
  const TwoPerLayer := [LowDrawer, LowDrawer, MiddleDrawer, MiddleDrawer, HighDrawer, HighDrawer]

  function TwoPerLayerScene(c1: string, c2: string, c3: string, m1: string, m2: string, m3: string): Graph
  {
    var n := SixNodes(c1, c2, c3, m1, m2, m3);
    Graph(n, EdgesOf(n, Ins6, TwoPerLayer))
  }

  lemma TwoPerLayerFormed(c1: string, c2: string, c3: string, m1: string, m2: string, m3: string)
    requires SixNamed(c1, c2, c3, m1, m2, m3)
    ensures WellFormed(SixNodes(c1, c2, c3, m1, m2, m3), Ins6, TwoPerLayer)
  {
    SixItems(c1, c2, c3, m1, m2, m3);
    assert forall r :: r in Ins6 ==> IsRelation(r);
    assert forall l :: l in TwoPerLayer ==> l in Layers;
    LayerPaths();
  }

  lemma TwoPerLayerPlaced(c1: string, c2: string, c3: string, m1: string, m2: string, m3: string, d: string)
    requires SixNamed(c1, c2, c3, m1, m2, m3)
    requires d == LowDrawer || d == MiddleDrawer || d == HighDrawer
    ensures var g := TwoPerLayerScene(c1, c2, c3, m1, m2, m3); PlacedAt(g, Objects(g), d) == 2
  {
    var g := TwoPerLayerScene(c1, c2, c3, m1, m2, m3);
    TwoPerLayerFormed(c1, c2, c3, m1, m2, m3);
    SixObjects(g, c1, c2, c3, m1, m2, m3);
    SixLocated(g, c1, c2, c3, m1, m2, m3, Ins6, TwoPerLayer);
    DrawersDiffer();
    PlacedSix(g, c1, c2, c3, m1, m2, m3, d);
  }

  lemma TwoPerLayerClean(c1: string, c2: string, c3: string, m1: string, m2: string, m3: string, d: string)
    requires SixNamed(c1, c2, c3, m1, m2, m3)
    ensures var g := TwoPerLayerScene(c1, c2, c3, m1, m2, m3); Unrelated(g.edges, Allowed(g), d) == 0
  {
    var g := TwoPerLayerScene(c1, c2, c3, m1, m2, m3);
    TwoPerLayerFormed(c1, c2, c3, m1, m2, m3);
    SixObjects(g, c1, c2, c3, m1, m2, m3);
    NoneUnrelated(g, SixNodes(c1, c2, c3, m1, m2, m3), Ins6, TwoPerLayer, d);
  }

  /** Two tracked objects per layer and nothing else in the drawers: 6 out of 6, a success. */
  lemma TwoPerLayerScores(c1: string, c2: string, c3: string, m1: string, m2: string, m3: string)
    requires SixNamed(c1, c2, c3, m1, m2, m3)
    ensures ByLayers(TwoPerLayerScene(c1, c2, c3, m1, m2, m3)) == Judgement(true, Progress(Whole(6), 6, None), None)
  {
    var g := TwoPerLayerScene(c1, c2, c3, m1, m2, m3);
    SixObjects(g, c1, c2, c3, m1, m2, m3);
    TwoPerLayerPlaced(c1, c2, c3, m1, m2, m3, LowDrawer);
    TwoPerLayerPlaced(c1, c2, c3, m1, m2, m3, MiddleDrawer);
    TwoPerLayerPlaced(c1, c2, c3, m1, m2, m3, HighDrawer);
    TwoPerLayerClean(c1, c2, c3, m1, m2, m3, LowDrawer);
    TwoPerLayerClean(c1, c2, c3, m1, m2, m3, MiddleDrawer);
    TwoPerLayerClean(c1, c2, c3, m1, m2, m3, HighDrawer);
    FullLayers(g);
  }

  // Test 2: one object in each layer.

  const Ins3 := ["(in)", "(in)", "(in)"]

  function OnePerLayerScene(c1: string, m1: string, c3: string): Graph
  {
    Graph([c1, m1, c3], EdgesOf([c1, m1, c3], Ins3, Layers))
  }

  predicate ThreeNamed(c1: string, m1: string, c3: string)
  {
    Named(c1) && Named(m1) && Named(c3) && IsCubeName(c1) && IsMugName(m1) && IsCubeName(c3) && Distinct([c1, m1, c3])
  }

  /** `Filter` keeping the first and last of three nodes. */
  lemma FilterOuter(x0: string, x1: string, x2: string, p: string -> bool)
    requires p(x0) && !p(x1) && p(x2)
    ensures Filter([x0, x1, x2], p) == [x0, x2]
  {
    FilterSnoc([], p, x0);
    assert [] + [x0] == [x0];
    FilterSnoc([x0], p, x1);
    assert [x0] + [x1] == [x0, x1];
    FilterSnoc([x0, x1], p, x2);
    assert [x0, x1] + [x2] == [x0, x1, x2];
  }

  /** `Filter` keeping the middle one of three nodes. */
  lemma FilterMiddle(x0: string, x1: string, x2: string, p: string -> bool)
    requires !p(x0) && p(x1) && !p(x2)
    ensures Filter([x0, x1, x2], p) == [x1]
  {
    FilterSnoc([], p, x0);
    assert [] + [x0] == [x0];
    FilterSnoc([x0], p, x1);
    assert [x0] + [x1] == [x0, x1];
    FilterSnoc([x0, x1], p, x2);
    assert [x0, x1] + [x2] == [x0, x1, x2];
  }

  lemma ThreeObjects(c1: string, m1: string, c3: string)
    requires ThreeNamed(c1, m1, c3)
    ensures Objects(OnePerLayerScene(c1, m1, c3)) == [c1, c3, m1]
  {
    KeysOfDistinct([c1, m1, c3], IsCubeName);
    KeysOfDistinct([c1, m1, c3], IsMugName);
    FilterOuter(c1, m1, c3, IsCubeName);
    FilterMiddle(c1, m1, c3, IsMugName);
    ObjectsOfThree(OnePerLayerScene(c1, m1, c3), c1, c3, m1);
  }

  lemma OnePerLayerFormed(c1: string, m1: string, c3: string)
    requires ThreeNamed(c1, m1, c3)
    ensures WellFormed([c1, m1, c3], Ins3, Layers)
  {
    assert forall r :: r in Ins3 ==> IsRelation(r);
    LayerPaths();
  }

  lemma OnePerLayerPlaced(c1: string, m1: string, c3: string, d: string)
    requires ThreeNamed(c1, m1, c3)
    requires d == LowDrawer || d == MiddleDrawer || d == HighDrawer
    ensures var g := OnePerLayerScene(c1, m1, c3); PlacedAt(g, Objects(g), d) == 1
  {
    var g := OnePerLayerScene(c1, m1, c3);
    OnePerLayerFormed(c1, m1, c3);
    ThreeObjects(c1, m1, c3);
    LocatedAt(g, [c1, m1, c3], Ins3, Layers, 0, c1);
    LocatedAt(g, [c1, m1, c3], Ins3, Layers, 1, m1);
    LocatedAt(g, [c1, m1, c3], Ins3, Layers, 2, c3);
    DrawersDiffer();
    PlacedThree(g, c1, c3, m1, d);
  }

  lemma OnePerLayerClean(c1: string, m1: string, c3: string, d: string)
    requires ThreeNamed(c1, m1, c3)
    ensures var g := OnePerLayerScene(c1, m1, c3); Unrelated(g.edges, Allowed(g), d) == 0
  {
    var g := OnePerLayerScene(c1, m1, c3);
    OnePerLayerFormed(c1, m1, c3);
    ThreeObjects(c1, m1, c3);
    NoneUnrelated(g, [c1, m1, c3], Ins3, Layers, d);
  }

  /** One tracked object per layer: each layer scores 1, so 3 out of 6 and a failure. */
  lemma OnePerLayerScores(c1: string, m1: string, c3: string)
    requires ThreeNamed(c1, m1, c3)
    ensures ByLayers(OnePerLayerScene(c1, m1, c3)) == Judgement(false, Progress(Whole(3), 6, None), Some(LayersShort(3)))
  {
    var g := OnePerLayerScene(c1, m1, c3);
    OnePerLayerPlaced(c1, m1, c3, LowDrawer);
    OnePerLayerPlaced(c1, m1, c3, MiddleDrawer);
    OnePerLayerPlaced(c1, m1, c3, HighDrawer);
    OnePerLayerClean(c1, m1, c3, LowDrawer);
    OnePerLayerClean(c1, m1, c3, MiddleDrawer);
    OnePerLayerClean(c1, m1, c3, HighDrawer);
    LayersHalfFull(g);
  }

  // Test 3: two objects in each layer and an untracked item in the low one.

  const Ins7 := ["(in)", "(in)", "(in)", "(in)", "(in)", "(in)", "(in)"]
  const Locs7 := [LowDrawer, LowDrawer, LowDrawer, MiddleDrawer, MiddleDrawer, HighDrawer, HighDrawer]

  /** The edges with the untracked item `t` third, as the test lists them. */
  function WithStray(c1: string, c2: string, c3: string, m1: string, m2: string, m3: string, t: string): seq<string>
  {
    [c1, c2, t, m1, m2, c3, m3]
  }

  function StrayScene(c1: string, c2: string, c3: string, m1: string, m2: string, m3: string, t: string): Graph
  {
    Graph(SixNodes(c1, c2, c3, m1, m2, m3) + [t], EdgesOf(WithStray(c1, c2, c3, m1, m2, m3, t), Ins7, Locs7))
  }

  predicate StrayNamed(c1: string, c2: string, c3: string, m1: string, m2: string, m3: string, t: string)
  {
    SixNamed(c1, c2, c3, m1, m2, m3) && Named(t) && !IsCubeName(t) && !IsMugName(t) &&
    t !in SixNodes(c1, c2, c3, m1, m2, m3)
  }

  lemma StrayFormed(c1: string, c2: string, c3: string, m1: string, m2: string, m3: string, t: string)
    requires StrayNamed(c1, c2, c3, m1, m2, m3, t)
    ensures WellFormed(WithStray(c1, c2, c3, m1, m2, m3, t), Ins7, Locs7)
  {
    var w := WithStray(c1, c2, c3, m1, m2, m3, t);
    var n := SixNodes(c1, c2, c3, m1, m2, m3);
    assert forall r :: r in Ins7 ==> IsRelation(r);
    assert forall l :: l in Locs7 ==> l in Layers;
    LayerPaths();
    assert Distinct(w) by {
      assert n[0] == c1 && n[1] == c2 && n[2] == m1 && n[3] == m2 && n[4] == c3 && n[5] == m3;
      assert w[0] == n[0] && w[1] == n[1] && w[3] == n[2] && w[4] == n[3] && w[5] == n[4] && w[6] == n[5];
    }
  }

  lemma StrayNodesDistinct(c1: string, c2: string, c3: string, m1: string, m2: string, m3: string, t: string)
    requires StrayNamed(c1, c2, c3, m1, m2, m3, t)
    ensures Distinct(SixNodes(c1, c2, c3, m1, m2, m3) + [t])
  {
    var n := SixNodes(c1, c2, c3, m1, m2, m3);
    assert forall i :: 0 <= i < |n| ==> (n + [t])[i] == n[i];
  }

  lemma StrayObjects(c1: string, c2: string, c3: string, m1: string, m2: string, m3: string, t: string)
    requires StrayNamed(c1, c2, c3, m1, m2, m3, t)
    ensures Objects(StrayScene(c1, c2, c3, m1, m2, m3, t)) == [c1, c2, c3, m1, m2, m3]
  {
    var n := SixNodes(c1, c2, c3, m1, m2, m3);
    StrayNodesDistinct(c1, c2, c3, m1, m2, m3, t);
    KeysOfDistinct(n + [t], IsCubeName);
    KeysOfDistinct(n + [t], IsMugName);
    FilterSnoc(n, IsCubeName, t);
    FilterSnoc(n, IsMugName, t);
    KeysOfDistinct(n, IsCubeName);
    KeysOfDistinct(n, IsMugName);
    SixKeys(c1, c2, c3, m1, m2, m3);
    var e: seq<string> := [];
    assert [c1, c2, c3] + e == [c1, c2, c3] && [m1, m2, m3] + e == [m1, m2, m3];
    ObjectsOfSix(StrayScene(c1, c2, c3, m1, m2, m3, t), c1, c2, c3, m1, m2, m3);
  }

  lemma StrayPlaced(c1: string, c2: string, c3: string, m1: string, m2: string, m3: string, t: string, d: string)
    requires StrayNamed(c1, c2, c3, m1, m2, m3, t)
    requires d == LowDrawer || d == MiddleDrawer || d == HighDrawer
    ensures var g := StrayScene(c1, c2, c3, m1, m2, m3, t); PlacedAt(g, Objects(g), d) == 2
  {
    var g := StrayScene(c1, c2, c3, m1, m2, m3, t);
    StrayFormed(c1, c2, c3, m1, m2, m3, t);
    StrayObjects(c1, c2, c3, m1, m2, m3, t);
    StrayLocated(g, c1, c2, c3, m1, m2, m3, t);
    DrawersDiffer();
    PlacedSix(g, c1, c2, c3, m1, m2, m3, d);
  }

  /** The six tracked objects, each located by its edge; the untracked item's edge comes third. */
  lemma StrayLocated(g: Graph, c1: string, c2: string, c3: string, m1: string, m2: string, m3: string, t: string)
    requires WellFormed(WithStray(c1, c2, c3, m1, m2, m3, t), Ins7, Locs7)
    requires g.edges == EdgesOf(WithStray(c1, c2, c3, m1, m2, m3, t), Ins7, Locs7)
    ensures Location(g, c1) == Some(LowDrawer) && Location(g, c2) == Some(LowDrawer)
    ensures Location(g, m1) == Some(MiddleDrawer) && Location(g, m2) == Some(MiddleDrawer)
    ensures Location(g, c3) == Some(HighDrawer) && Location(g, m3) == Some(HighDrawer)
  {
    StrayLocatedLow(g, c1, c2, c3, m1, m2, m3, t);
    StrayLocatedHigh(g, c1, c2, c3, m1, m2, m3, t);
  }

  lemma StrayLocatedLow(g: Graph, c1: string, c2: string, c3: string, m1: string, m2: string, m3: string, t: string)
    requires WellFormed(WithStray(c1, c2, c3, m1, m2, m3, t), Ins7, Locs7)
    requires g.edges == EdgesOf(WithStray(c1, c2, c3, m1, m2, m3, t), Ins7, Locs7)
    ensures Location(g, c1) == Some(LowDrawer) && Location(g, c2) == Some(LowDrawer)
    ensures Location(g, m1) == Some(MiddleDrawer)
  {
    var w := WithStray(c1, c2, c3, m1, m2, m3, t);
    LocatedAt(g, w, Ins7, Locs7, 0, c1);
    LocatedAt(g, w, Ins7, Locs7, 1, c2);
    LocatedAt(g, w, Ins7, Locs7, 3, m1);
  }

  lemma StrayLocatedHigh(g: Graph, c1: string, c2: string, c3: string, m1: string, m2: string, m3: string, t: string)
    requires WellFormed(WithStray(c1, c2, c3, m1, m2, m3, t), Ins7, Locs7)
    requires g.edges == EdgesOf(WithStray(c1, c2, c3, m1, m2, m3, t), Ins7, Locs7)
    ensures Location(g, m2) == Some(MiddleDrawer)
    ensures Location(g, c3) == Some(HighDrawer) && Location(g, m3) == Some(HighDrawer)
  {
    var w := WithStray(c1, c2, c3, m1, m2, m3, t);
    LocatedAt(g, w, Ins7, Locs7, 4, m2);
    LocatedAt(g, w, Ins7, Locs7, 5, c3);
    LocatedAt(g, w, Ins7, Locs7, 6, m3);
  }

  lemma StrayUnrelated(c1: string, c2: string, c3: string, m1: string, m2: string, m3: string, t: string, d: string)
    requires StrayNamed(c1, c2, c3, m1, m2, m3, t)
    ensures var g := StrayScene(c1, c2, c3, m1, m2, m3, t);
            Unrelated(g.edges, Allowed(g), d) == if d == LowDrawer then 1 else 0
  {
    var g := StrayScene(c1, c2, c3, m1, m2, m3, t);
    var w := WithStray(c1, c2, c3, m1, m2, m3, t);
    StrayFormed(c1, c2, c3, m1, m2, m3, t);
    StrayObjects(c1, c2, c3, m1, m2, m3, t);
    assert t !in [c1, c2, c3, m1, m2, m3];
    StrayAllowed(g, c1, c2, c3, m1, m2, m3, t);
    UnrelatedOf(w, Ins7, Locs7, Allowed(g), d);
    StraysOne(w, Locs7, Allowed(g), d, 2);
  }

  /** Only the third edge's item, `t`, is not tracked. */
  lemma StrayAllowed(g: Graph, c1: string, c2: string, c3: string, m1: string, m2: string, m3: string, t: string)
    requires Objects(g) == [c1, c2, c3, m1, m2, m3] && t !in [c1, c2, c3, m1, m2, m3]
    ensures var w := WithStray(c1, c2, c3, m1, m2, m3, t);
            w[2] !in Allowed(g) && forall i :: 0 <= i < |w| && i != 2 ==> w[i] in Allowed(g)
  {
    var w := WithStray(c1, c2, c3, m1, m2, m3, t);
    assert w[0] == c1 && w[1] == c2 && w[2] == t && w[3] == m1 && w[4] == m2 && w[5] == c3 && w[6] == m3;
  }

  /** The untracked item zeroes the low layer: 4 out of 6 and a failure. */
  lemma StrayScores(c1: string, c2: string, c3: string, m1: string, m2: string, m3: string, t: string)
    requires StrayNamed(c1, c2, c3, m1, m2, m3, t)
    ensures ByLayers(StrayScene(c1, c2, c3, m1, m2, m3, t)) == Judgement(false, Progress(Whole(4), 6, None), Some(LayersShort(4)))
  {
    var g := StrayScene(c1, c2, c3, m1, m2, m3, t);
    StrayPlaced(c1, c2, c3, m1, m2, m3, t, LowDrawer);
    StrayPlaced(c1, c2, c3, m1, m2, m3, t, MiddleDrawer);
    StrayPlaced(c1, c2, c3, m1, m2, m3, t, HighDrawer);
    DrawersDiffer();
    StrayUnrelated(c1, c2, c3, m1, m2, m3, t, LowDrawer);
    StrayUnrelated(c1, c2, c3, m1, m2, m3, t, MiddleDrawer);
    StrayUnrelated(c1, c2, c3, m1, m2, m3, t, HighDrawer);
    LowLayerSpoiled(g);
  }

  // Test 4: every object on the table.

  const Table := "table"
  const On6 := ["(on)", "(on)", "(on)", "(on)", "(on)", "(on)"]
  const Tables6 := [Table, Table, Table, Table, Table, Table]

  function OnTableScene(c1: string, c2: string, c3: string, m1: string, m2: string, m3: string): Graph
  {
    var n := SixNodes(c1, c2, c3, m1, m2, m3);
    Graph(n, EdgesOf(n, On6, Tables6))
  }

  lemma TableDiffers()
    ensures LowDrawer != Table && MiddleDrawer != Table && HighDrawer != Table
  {
    assert |LowDrawer| != |Table| && |MiddleDrawer| != |Table| && |HighDrawer| != |Table|;
  }

  lemma OnTableFormed(c1: string, c2: string, c3: string, m1: string, m2: string, m3: string)
    requires SixNamed(c1, c2, c3, m1, m2, m3)
    ensures WellFormed(SixNodes(c1, c2, c3, m1, m2, m3), On6, Tables6)
  {
    SixItems(c1, c2, c3, m1, m2, m3);
    WordTable();
    assert forall r :: r in On6 ==> IsRelation(r);
    assert forall l :: l in Tables6 ==> l == Table;
  }

  lemma OnTablePlaced(c1: string, c2: string, c3: string, m1: string, m2: string, m3: string, d: string)
    requires SixNamed(c1, c2, c3, m1, m2, m3)
    requires d == LowDrawer || d == MiddleDrawer || d == HighDrawer
    ensures var g := OnTableScene(c1, c2, c3, m1, m2, m3); PlacedAt(g, Objects(g), d) == 0
  {
    var g := OnTableScene(c1, c2, c3, m1, m2, m3);
    OnTableFormed(c1, c2, c3, m1, m2, m3);
    SixObjects(g, c1, c2, c3, m1, m2, m3);
    SixLocated(g, c1, c2, c3, m1, m2, m3, On6, Tables6);
    TableDiffers();
    PlacedSix(g, c1, c2, c3, m1, m2, m3, d);
  }

  lemma OnTableClean(c1: string, c2: string, c3: string, m1: string, m2: string, m3: string, d: string)
    requires SixNamed(c1, c2, c3, m1, m2, m3)
    ensures var g := OnTableScene(c1, c2, c3, m1, m2, m3); Unrelated(g.edges, Allowed(g), d) == 0
  {
    var g := OnTableScene(c1, c2, c3, m1, m2, m3);
    OnTableFormed(c1, c2, c3, m1, m2, m3);
    SixObjects(g, c1, c2, c3, m1, m2, m3);
    NoneUnrelated(g, SixNodes(c1, c2, c3, m1, m2, m3), On6, Tables6, d);
  }

  /** Nothing in any drawer: 0 out of 6 and a failure. */
  lemma OnTableScores(c1: string, c2: string, c3: string, m1: string, m2: string, m3: string)
    requires SixNamed(c1, c2, c3, m1, m2, m3)
    ensures ByLayers(OnTableScene(c1, c2, c3, m1, m2, m3)) == Judgement(false, Progress(Whole(0), 6, None), Some(LayersShort(0)))
  {
    var g := OnTableScene(c1, c2, c3, m1, m2, m3);
    OnTablePlaced(c1, c2, c3, m1, m2, m3, LowDrawer);
    OnTablePlaced(c1, c2, c3, m1, m2, m3, MiddleDrawer);
    OnTablePlaced(c1, c2, c3, m1, m2, m3, HighDrawer);
    OnTableClean(c1, c2, c3, m1, m2, m3, LowDrawer);
    OnTableClean(c1, c2, c3, m1, m2, m3, MiddleDrawer);
    OnTableClean(c1, c2, c3, m1, m2, m3, HighDrawer);
    EmptyLayers(g);
  }


  // ----- the four tests -----

  lemma SixExampleNames()
    ensures SixNamed(RedCube1, RedCube2, YellowCube3, BlueMug1, BlueMug2, YellowMug3)
  {
    Names();
    WordNames();
    assert RedCube1[8] != RedCube2[8];
  }

  /** Test 1 scores 6 out of 6 and succeeds. */
  lemma Test1Judged()
    ensures ByLayers(TwoPerLayerScene(RedCube1, RedCube2, YellowCube3, BlueMug1, BlueMug2, YellowMug3)) ==
            Judgement(true, Progress(Whole(6), 6, None), None)
  {
    SixExampleNames();
    TwoPerLayerScores(RedCube1, RedCube2, YellowCube3, BlueMug1, BlueMug2, YellowMug3);
  }

  /** Test 2 scores 3 out of 6 and fails. */
  lemma Test2Judged()
    ensures ByLayers(OnePerLayerScene(RedCube1, BlueMug1, YellowCube3)) ==
            Judgement(false, Progress(Whole(3), 6, None), Some(LayersShort(3)))
  {
    Names();
    WordNames();
    assert RedCube1[0] != BlueMug1[0] && RedCube1[0] != YellowCube3[0] && BlueMug1[0] != YellowCube3[0];
    OnePerLayerScores(RedCube1, BlueMug1, YellowCube3);
  }

  /** Test 3 scores 4 out of 6: the `table` item costs the low layer its points. */
  lemma Test3Judged()
    ensures ByLayers(StrayScene(RedCube1, RedCube2, YellowCube3, BlueMug1, BlueMug2, YellowMug3, Table)) ==
            Judgement(false, Progress(Whole(4), 6, None), Some(LayersShort(4)))
  {
    SixExampleNames();
    TableUntracked();
    WordTable();
    assert Table !in SixNodes(RedCube1, RedCube2, YellowCube3, BlueMug1, BlueMug2, YellowMug3) by {
      assert forall x :: x in SixNodes(RedCube1, RedCube2, YellowCube3, BlueMug1, BlueMug2, YellowMug3) ==> |x| > 5;
    }
    StrayScores(RedCube1, RedCube2, YellowCube3, BlueMug1, BlueMug2, YellowMug3, Table);
  }

  /** Test 4 scores 0 out of 6. */
  lemma Test4Judged()
    ensures ByLayers(OnTableScene(RedCube1, RedCube2, YellowCube3, BlueMug1, BlueMug2, YellowMug3)) ==
            Judgement(false, Progress(Whole(0), 6, None), Some(LayersShort(0)))
  {
    SixExampleNames();
    OnTableScores(RedCube1, RedCube2, YellowCube3, BlueMug1, BlueMug2, YellowMug3);
  }
}
