// The two colour judges of report_analysis/Auto_extract_report_data_batch.py:
// `judge_type_2_2_corresponding_boxes` (every red/blue/yellow cube and mug in
// the box of its colour) and `judge_type_2_3_by_color_to_drawers` (all cubes
// and mugs in the drawers, one colour per drawer layer, scored `P1/P2/P3/S`).
module ColourJudges {
  import opened Text
  import opened SceneAnalysis
  import opened ReportScene
  import SuccessRate

  // ----- names of a colour -----

  const Colours: seq<string> := ["red", "blue", "yellow"]

  /** What `\d*$` accepts: digits, then at most one final newline. */
  predicate DigitsToEnd(t: string)
  {
    AllChars(t, IsDigit) || (t != [] && t[|t| - 1] == '\n' && AllChars(t[..|t| - 1], IsDigit))
  }

  /** `re.match(rf'^{colour}_{kind}\d*$', name)`. */
  predicate IsColourObject(name: string, colour: string, kind: string)
  {
    var p := colour + "_" + kind;
    StartsWith(name, p) && DigitsToEnd(name[|p|..])
  }

  /** `[obj for obj in names if pattern.match(obj)]`. */
  function ColourFilter(names: seq<string>, colour: string, kind: string): (r: seq<string>)
    ensures forall o :: o in r <==> o in names && IsColourObject(o, colour, kind)
    ensures |r| <= |names|
  {
    if names == [] then []
    else
      var init := ColourFilter(names[..|names| - 1], colour, kind);
      var n := names[|names| - 1];
      assert forall o :: o in names <==> o in names[..|names| - 1] || o == n;
      if IsColourObject(n, colour, kind) then init + [n] else init
  }

  // ----- corresponding boxes -----

  /** The objects the judge counts for `colour`: its cubes, then its mugs, in node order. */
  function ColourObjects(g: Graph, colour: string): seq<string>
  {
    ColourFilter(Keys(g.nodes, IsCubeName), colour, "cube") + ColourFilter(Keys(g.nodes, IsMugName), colour, "mug")
  }

  /** How many objects of `colour` are counted. */
  function CountedFor(g: Graph, colour: string): nat
  {
    |ColourObjects(g, colour)|
  }

  /** How many objects of `colour` are in `<colour>_box`. */
  function CorrectFor(g: Graph, colour: string): (n: nat)
    ensures n <= CountedFor(g, colour)
  {
    PlacedAt(g, ColourObjects(g, colour), colour + "_box")
  }

  /** The sum of `f` over `cs`. */
  function Total(cs: seq<string>, f: string -> nat): nat
  {
    if cs == [] then 0 else Total(cs[..|cs| - 1], f) + f(cs[|cs| - 1])
  }

  /** `total_count` over the colours `cs`. */
  function CountedOver(g: Graph, cs: seq<string>): nat
  {
    Total(cs, c => CountedFor(g, c))
  }

  /** `correct_count` over the colours `cs`. */
  function CorrectOver(g: Graph, cs: seq<string>): nat
  {
    Total(cs, c => CorrectFor(g, c))
  }

  /** What the judge returns: correct over counted, success when they agree. */
  function CorrespondingBoxes(g: Graph): (j: Judgement)
    ensures Consistent(j)
    ensures j.progress.correct.Whole? && j.progress.correct.n <= j.progress.total
  {
    var correct, total := CorrectOver(g, Colours), CountedOver(g, Colours);
    CorrectOverAll(g, Colours);
    if correct == total then Judgement(true, Progress(Whole(total), total, None), None)
    else Judgement(false, Progress(Whole(correct), total, None), Some(BoxesIncomplete(correct, total)))
  }

  /** The judge's loops: per colour, count the matching cubes and mugs and those in the colour's box. */
  method JudgeCorrespondingBoxes(g: Graph) returns (j: Judgement)
    ensures j == CorrespondingBoxes(g)
  {
    var cubes, mugs, loc := TrackObjects(g);
    var correct, total := 0, 0;
    var k := 0;
    while k < |Colours|
      invariant 0 <= k <= |Colours|
      invariant correct == CorrectOver(g, Colours[..k]) && total == CountedOver(g, Colours[..k])
    {
      var colour := Colours[k];
      assert Colours[..k + 1][..k] == Colours[..k];
      var objs := ColourFilter(cubes, colour, "cube") + ColourFilter(mugs, colour, "mug");
      total := total + |objs|;
      var n := CountPlacedAt(g, objs, loc, colour + "_box");
      correct := correct + n;
      k := k + 1;
    }
    assert Colours[..|Colours|] == Colours;
    if correct == total {
      j := Judgement(true, Progress(Whole(total), total, None), None);
    } else {
      j := Judgement(false, Progress(Whole(correct), total, None), Some(BoxesIncomplete(correct, total)));
    }
  }

  /** All of `objs` are counted exactly when every one of them is at `box`. */
  lemma {:induction false} InBoxAll(g: Graph, objs: seq<string>, box: string)
    ensures PlacedAt(g, objs, box) == |objs| <==> forall o :: o in objs ==> Location(g, o) == Some(box)
  {
    if objs != [] {
      var init := objs[..|objs| - 1];
      InBoxAll(g, init, box);
      assert forall o :: o in objs <==> o in init || o == objs[|objs| - 1];
    }
  }

  /** Every counted object of `colour` is in its box. */
  predicate ColourDone(g: Graph, colour: string)
  {
    CorrectFor(g, colour) == CountedFor(g, colour)
  }

  /** Of two sums, one bounded by the other term by term, they meet exactly when every term does. */
  lemma {:induction false} TotalsMeet(cs: seq<string>, f: string -> nat, h: string -> nat)
    requires forall c :: f(c) <= h(c)
    ensures Total(cs, f) <= Total(cs, h)
    ensures Total(cs, f) == Total(cs, h) <==> forall i :: 0 <= i < |cs| ==> f(cs[i]) == h(cs[i])
  {
    if cs != [] {
      var init := cs[..|cs| - 1];
      TotalsMeet(init, f, h);
      assert forall i :: 0 <= i < |init| ==> init[i] == cs[i];
    }
  }

  /** Over several colours, correct meets counted exactly when it does for each colour. */
  lemma CorrectOverAll(g: Graph, cs: seq<string>)
    ensures CorrectOver(g, cs) <= CountedOver(g, cs)
    ensures CorrectOver(g, cs) == CountedOver(g, cs) <==> forall i :: 0 <= i < |cs| ==> ColourDone(g, cs[i])
  {
    TotalsMeet(cs, c => CorrectFor(g, c), c => CountedFor(g, c));
  }

  /** A node of the shape `<colour>_cube<digits>` is tracked as a cube. */
  lemma ColourCubeIsTracked(o: string, colour: string)
    requires IsColourObject(o, colour, "cube")
    ensures IsCubeName(o)
  {
    var p := colour + "_" + "cube";
    assert o[..|p|] == p;
    assert o[|colour|..|colour| + 5] == p[|colour|..];
    assert OccursAt(o, "_cube", |colour|);
  }

  /** A node of the shape `<colour>_mug<digits>` for a judged colour is tracked as a mug. */
  lemma ColourMugIsTracked(o: string, colour: string)
    requires colour in Colours
    requires IsColourObject(o, colour, "mug")
    ensures IsMugName(o)
  {
    var p := colour + "_" + "mug";
    assert o[..|p|] == p;
    assert o[|colour| + 1..|colour| + 4] == p[|colour| + 1..];
    assert OccursAt(o, "mug", |colour| + 1);
    var t := o[|p|..];
    assert o == p + t;
    assert 'c' !in p;
    assert 'c' !in t by {
      forall i | 0 <= i < |t| ensures t[i] != 'c' {
        if AllChars(t, IsDigit) { assert IsDigit(t[i]); }
        else if i < |t| - 1 { assert IsDigit(t[..|t| - 1][i]); }
      }
    }
    ContainsNeedsChar(o, "_cube", 'c');
  }

  /** The counted objects of a colour are exactly the nodes of its two shapes. */
  lemma ColourObjectsAre(g: Graph, colour: string, o: string)
    requires colour in Colours
    ensures o in ColourObjects(g, colour) <==>
              o in g.nodes && (IsColourObject(o, colour, "cube") || IsColourObject(o, colour, "mug"))
  {
    if IsColourObject(o, colour, "cube") { ColourCubeIsTracked(o, colour); }
    if IsColourObject(o, colour, "mug") { ColourMugIsTracked(o, colour); }
  }

  /**
   * The corresponding-boxes judge succeeds exactly when every node shaped
   * `<colour>_cube<digits>` or `<colour>_mug<digits>`, for red, blue and
   * yellow, is located in `<colour>_box`; with no such node it succeeds.
   */
  lemma CorrespondingSuccess(g: Graph)
    ensures CorrespondingBoxes(g).success <==>
              forall i, o :: 0 <= i < |Colours| && o in g.nodes &&
                             (IsColourObject(o, Colours[i], "cube") || IsColourObject(o, Colours[i], "mug")) ==>
                             Location(g, o) == Some(Colours[i] + "_box")
  {
    CorrectOverAll(g, Colours);
    forall i | 0 <= i < |Colours|
      ensures ColourDone(g, Colours[i]) <==>
                forall o :: o in g.nodes && (IsColourObject(o, Colours[i], "cube") || IsColourObject(o, Colours[i], "mug")) ==>
                            Location(g, o) == Some(Colours[i] + "_box")
    {
      var c := Colours[i];
      InBoxAll(g, ColourObjects(g, c), c + "_box");
      forall o ensures o in ColourObjects(g, c) <==> o in g.nodes && (IsColourObject(o, c, "cube") || IsColourObject(o, c, "mug")) {
        ColourObjectsAre(g, c, o);
      }
    }
  }
}
