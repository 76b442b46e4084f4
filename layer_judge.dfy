// `judge_drawer_task_by_layers` (report_analysis/Auto_extract_report_data_batch.py):
// six cubes and mugs spread over the three drawer layers, two per layer.
// A layer scores 2 for two tracked objects, 1 for one, and 0 otherwise or
// whenever an untracked item sits in it; the task succeeds with 6 points and
// every tracked object in some layer.
module LayerJudge {
  import opened Text
  import opened SceneAnalysis
  import opened ReportScene

  const Layers: seq<string> := [LowDrawer, MiddleDrawer, HighDrawer]

  /** How many matching edges put an item outside `allowed` at `drawer`. */
  function Unrelated(edges: seq<string>, allowed: set<string>, drawer: string): nat
  {
    if edges == [] then 0
    else
      var m := EdgeMatch(edges[|edges| - 1]);
      Unrelated(edges[..|edges| - 1], allowed, drawer) + (if m.Some? && m.value.1 == drawer && m.value.0 !in allowed then 1 else 0)
  }

  /** The per-layer rule: any unrelated item gives 0, otherwise 2 or 1 for two or one objects, else 0. */
  function LayerScore(correct: nat, unrelated: nat): (s: nat)
    ensures s <= 2
    ensures s == 2 <==> unrelated == 0 && correct == 2
    ensures s == 1 <==> unrelated == 0 && correct == 1
  {
    if unrelated > 0 then 0 else if correct == 2 then 2 else if correct == 1 then 1 else 0
  }

  /** The score of one layer of scene `g`. */
  function LayerOf(g: Graph, drawer: string): nat
  {
    var objs := Objects(g);
    LayerScore(PlacedAt(g, objs, drawer), Unrelated(g.edges, Allowed(g), drawer))
  }

  /** `total_score` over the drawers `ds`. */
  function ScoreOver(g: Graph, ds: seq<string>): nat
  {
    if ds == [] then 0 else ScoreOver(g, ds[..|ds| - 1]) + LayerOf(g, ds[|ds| - 1])
  }

  /** `total_correct` over the drawers `ds`. */
  function PlacedOver(g: Graph, objs: seq<string>, ds: seq<string>): nat
  {
    if ds == [] then 0 else PlacedOver(g, objs, ds[..|ds| - 1]) + PlacedAt(g, objs, ds[|ds| - 1])
  }

  /** What the judge returns: `int(total_score)` out of 6, success on 6 points with every object placed. */
  function ByLayers(g: Graph): (j: Judgement)
    ensures Consistent(j)
    ensures j.progress.total == 6
  {
    var score := ScoreOver(g, Layers);
    var success := score == 6 && PlacedOver(g, Objects(g), Layers) == |Objects(g)|;
    Judgement(success, Progress(Whole(score), 6, None), if success then None else Some(LayersShort(score)))
  }

  /** The judge's loops: per layer, count the tracked objects there and the unrelated edges into it. */
  method JudgeByLayers(g: Graph) returns (j: Judgement)
    ensures j == ByLayers(g)
  {
    var cubes, mugs, loc := TrackObjects(g);
    var all := cubes + mugs;
    var allowed := set o | o in all;
    assert allowed == Allowed(g);
    var totalScore, totalCorrect := ScoreLayers(g, all, loc, allowed);
    var success := totalScore == 6 && totalCorrect == |all|;
    j := Judgement(success, Progress(Whole(totalScore), 6, None), if success then None else Some(LayersShort(totalScore)));
  }

  /** The loop over the three layers, summing the layer scores and the objects placed. */
  method ScoreLayers(g: Graph, all: seq<string>, loc: map<string, Option<string>>, allowed: set<string>)
    returns (totalScore: nat, totalCorrect: nat)
    requires all == Objects(g) && allowed == Allowed(g)
    requires forall o :: o in all ==> o in loc && loc[o] == Location(g, o)
    ensures totalScore == ScoreOver(g, Layers) && totalCorrect == PlacedOver(g, all, Layers)
  {
    totalScore := 0;
    totalCorrect := 0;
    var k := 0;
    while k < |Layers|
      invariant 0 <= k <= |Layers|
      invariant totalScore == ScoreOver(g, Layers[..k])
      invariant totalCorrect == PlacedOver(g, all, Layers[..k])
    {
      var drawer := Layers[k];
      assert Layers[..k + 1][..k] == Layers[..k];
      var correct := CountPlacedAt(g, all, loc, drawer);
      var unrelated := CountUnrelated(g.edges, allowed, drawer);
      totalScore := totalScore + LayerScore(correct, unrelated);
      totalCorrect := totalCorrect + correct;
      k := k + 1;
    }
    assert Layers[..|Layers|] == Layers;
  }

  method CountUnrelated(edges: seq<string>, allowed: set<string>, drawer: string) returns (n: nat)
    ensures n == Unrelated(edges, allowed, drawer)
  {
    n := 0;
    var i := 0;
    while i < |edges|
      invariant 0 <= i <= |edges|
      invariant n == Unrelated(edges[..i], allowed, drawer)
    {
      assert edges[..i + 1][..i] == edges[..i];
      var m := EdgeMatch(edges[i]);
      if m.Some? && m.value.1 == drawer && m.value.0 !in allowed {
        n := n + 1;
      }
      i := i + 1;
    }
    assert edges[..|edges|] == edges;
  }

  // ----- what success means -----

  /** How many of `objs` are located at one of the drawers `ds`. */
  function InDrawers(g: Graph, objs: seq<string>, ds: seq<string>): (n: nat)
    ensures n <= |objs|
  {
    if objs == [] then 0
    else
      var l := Location(g, objs[|objs| - 1]);
      InDrawers(g, objs[..|objs| - 1], ds) + (if l.Some? && l.value in ds then 1 else 0)
  }

  /** Adding a drawer not yet listed adds the objects located there. */
  lemma {:induction false} InDrawersSnoc(g: Graph, objs: seq<string>, ds: seq<string>, d: string)
    requires d !in ds
    ensures InDrawers(g, objs, ds + [d]) == InDrawers(g, objs, ds) + PlacedAt(g, objs, d)
  {
    if objs != [] {
      InDrawersSnoc(g, objs[..|objs| - 1], ds, d);
    }
  }

  /** Over distinct drawers, the per-drawer counts add up to the objects in any of them. */
  lemma {:induction false} PlacedOverDistinct(g: Graph, objs: seq<string>, ds: seq<string>)
    requires forall i, j :: 0 <= i < j < |ds| ==> ds[i] != ds[j]
    ensures PlacedOver(g, objs, ds) == InDrawers(g, objs, ds)
  {
    if ds == [] {
      InDrawersNone(g, objs);
    } else {
      var init, d := ds[..|ds| - 1], ds[|ds| - 1];
      assert init + [d] == ds;
      PlacedOverDistinct(g, objs, init);
      InDrawersSnoc(g, objs, init, d);
    }
  }

  lemma {:induction false} InDrawersNone(g: Graph, objs: seq<string>)
    ensures InDrawers(g, objs, []) == 0
  {
    if objs != [] {
      InDrawersNone(g, objs[..|objs| - 1]);
    }
  }

  /** All objects are counted exactly when every one of them is located at one of `ds`. */
  lemma {:induction false} InDrawersAll(g: Graph, objs: seq<string>, ds: seq<string>)
    ensures InDrawers(g, objs, ds) == |objs| <==>
            forall i :: 0 <= i < |objs| ==> Location(g, objs[i]).Some? && Location(g, objs[i]).value in ds
  {
    if objs != [] {
      var init := objs[..|objs| - 1];
      InDrawersAll(g, init, ds);
      assert forall i :: 0 <= i < |init| ==> init[i] == objs[i];
    }
  }

  /** A layer scores at most 2, so `ds` score at most twice their number, and reach it only with 2 each. */
  lemma {:induction false} ScoreOverFull(g: Graph, ds: seq<string>)
    ensures ScoreOver(g, ds) <= 2 * |ds|
    ensures ScoreOver(g, ds) == 2 * |ds| <==> forall i :: 0 <= i < |ds| ==> LayerOf(g, ds[i]) == 2
  {
    if ds != [] {
      var init := ds[..|ds| - 1];
      ScoreOverFull(g, init);
      assert forall i :: 0 <= i < |init| ==> init[i] == ds[i];
    }
  }

  lemma LayersDistinct()
    ensures forall i, j :: 0 <= i < j < |Layers| ==> Layers[i] != Layers[j]
  {
    assert LowDrawer[21] == 'l' && MiddleDrawer[21] == 'm' && HighDrawer[21] == 'h';
  }

  /** Every object is counted exactly when every object is in a layer. */
  lemma AllInLayers(g: Graph)
    ensures InDrawers(g, Objects(g), Layers) == |Objects(g)| <==>
            forall o :: o in Objects(g) ==> Location(g, o).Some? && Location(g, o).value in Layers
  {
    var objs := Objects(g);
    InDrawersAll(g, objs, Layers);
    assert forall o :: o in objs ==> exists i :: 0 <= i < |objs| && objs[i] == o;
  }

  /**
   * The layer judge succeeds exactly when each layer holds two tracked objects
   * and no unrelated item, and every tracked object lies in some layer.
   */
  lemma LayerSuccess(g: Graph)
    ensures ByLayers(g).success <==>
              (forall i :: 0 <= i < |Layers| ==>
                 PlacedAt(g, Objects(g), Layers[i]) == 2 && Unrelated(g.edges, Allowed(g), Layers[i]) == 0) &&
              (forall o :: o in Objects(g) ==> Location(g, o).Some? && Location(g, o).value in Layers)
    ensures ByLayers(g).progress.correct.n <= 6
  {
    ScoreOverFull(g, Layers);
    LayersDistinct();
    PlacedOverDistinct(g, Objects(g), Layers);
    AllInLayers(g);
  }

  /** A success means exactly six tracked objects, two per layer. */
  lemma LayerSuccessSix(g: Graph)
    requires ByLayers(g).success
    ensures |Objects(g)| == 6
  {
    var objs := Objects(g);
    ScoreOverFull(g, Layers);
    assert LayerOf(g, Layers[0]) == 2 && LayerOf(g, Layers[1]) == 2 && LayerOf(g, Layers[2]) == 2;
    PlacedOverLayers(g, objs);
  }

  lemma PlacedOverLayers(g: Graph, objs: seq<string>)
    ensures PlacedOver(g, objs, Layers) == PlacedAt(g, objs, Layers[0]) + PlacedAt(g, objs, Layers[1]) + PlacedAt(g, objs, Layers[2])
  {
    var l1, l2 := Layers[..1], Layers[..2];
    assert l2[..1] == l1 && l1[..0] == [] && l1[0] == Layers[0] && l2[1] == Layers[1];
    assert PlacedOver(g, objs, l1) == PlacedAt(g, objs, Layers[0]);
    assert PlacedOver(g, objs, l2) == PlacedOver(g, objs, l1) + PlacedAt(g, objs, Layers[1]);
  }
}
