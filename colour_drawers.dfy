// `judge_type_2_3_by_color_to_drawers` of
// report_analysis/Auto_extract_report_data_batch.py: every cube and mug into
// the drawers, one colour per drawer layer, reported as `P1/P2/P3/S` where
// P1 says no other item is in a drawer, P2 counts the objects in drawers,
// P3 scores the single-colour layers and S counts the objects.
module ColourDrawers {
  import opened Text
  import opened SceneAnalysis
  import opened ReportScene
  import SuccessRate

  // ----- where the objects are -----

  /** Every tracked object has a location; otherwise `"drawer" in None` raises a TypeError. */
  predicate AllLocated(g: Graph) { forall o :: o in Objects(g) ==> Location(g, o).Some? }

  /** `o` is located in a drawer. */
  predicate AtDrawer(g: Graph, o: string) { Location(g, o).Some? && InDrawer(Location(g, o).value) }

  /** `items_in_drawers` over `objs`: each object in a drawer with its drawer, in order. */
  function ItemsInDrawers(g: Graph, objs: seq<string>): (items: seq<(string, string)>)
    ensures |items| <= |objs|
    ensures forall k :: 0 <= k < |items| ==> InDrawer(items[k].1)
  {
    if objs == [] then []
    else
      var o := objs[|objs| - 1];
      ItemsInDrawers(g, objs[..|objs| - 1]) + (if AtDrawer(g, o) then [(o, Location(g, o).value)] else [])
  }

  /** P2, the size of `items_in_drawers`, reaches S exactly when every object is in a drawer. */
  lemma {:induction false} InDrawersAll(g: Graph, objs: seq<string>)
    ensures |ItemsInDrawers(g, objs)| == |objs| <==> forall o :: o in objs ==> AtDrawer(g, o)
  {
    if objs != [] {
      var init := objs[..|objs| - 1];
      InDrawersAll(g, init);
      assert forall o :: o in objs <==> o in init || o == objs[|objs| - 1];
    }
  }

  /** An edge putting into a drawer an item that is not a tracked cube or mug. */
  predicate IntrudesDrawer(edge: string, allowed: set<string>)
  {
    EdgeMatch(edge).Some? && InDrawer(EdgeMatch(edge).value.1) && EdgeMatch(edge).value.0 !in allowed
  }

  /** `non_cube_mug_items`: the items of the intruding edges, in edge order. */
  function Unrelated(edges: seq<string>, allowed: set<string>): (r: seq<string>)
    ensures forall x :: x in r ==> x !in allowed
    ensures r == [] <==> forall i :: 0 <= i < |edges| ==> !IntrudesDrawer(edges[i], allowed)
  {
    if edges == [] then []
    else
      var init := edges[..|edges| - 1];
      var e := edges[|edges| - 1];
      assert forall i :: 0 <= i < |init| ==> init[i] == edges[i];
      var r := Unrelated(init, allowed);
      if IntrudesDrawer(e, allowed) then r + [EdgeMatch(e).value.0] else r
  }

  // ----- the colour of an object -----

  /** How many digits end `s`. */
  function TrailingDigits(s: string): (n: nat)
    ensures n <= |s|
    ensures forall i :: |s| - n <= i < |s| ==> IsDigit(s[i])
    ensures n < |s| ==> !IsDigit(s[|s| - n - 1])
  {
    if s != [] && IsDigit(s[|s| - 1]) then TrailingDigits(s[..|s| - 1]) + 1 else 0
  }

  /**
   * `re.match(rf'^(\w+)_{kind}\d*$', item).group(1)`. `$` also matches before
   * one final newline; the digits after `_{kind}` are the whole trailing run.
   */
  function KindColour(item: string, kind: string): (r: Option<string>)
    ensures r.Some? ==> r.value != [] && AllChars(r.value, IsWordChar)
  {
    var body := if item != [] && item[|item| - 1] == '\n' then item[..|item| - 1] else item;
    var stem := body[..|body| - TrailingDigits(body)];
    var suffix := "_" + kind;
    if EndsWith(stem, suffix) && |stem| > |suffix| && AllChars(stem[..|stem| - |suffix|], IsWordChar) then
      Some(stem[..|stem| - |suffix|])
    else None
  }

  /** A name built as word, `_`, kind and digits gives its word back. */
  lemma KindColourOf(w: string, kind: string, ds: string)
    requires w != [] && AllChars(w, IsWordChar)
    requires kind != [] && !IsDigit(kind[|kind| - 1]) && kind[|kind| - 1] != '\n'
    requires AllChars(ds, IsDigit)
    ensures KindColour(w + "_" + kind + ds, kind) == Some(w)
  {
    var suffix := "_" + kind;
    var stem := w + suffix;
    var item := stem + ds;
    assert w + "_" + kind + ds == item;
    assert stem[|stem| - 1] == kind[|kind| - 1];
    assert item[|item| - 1] != '\n' by {
      if ds != [] { assert item[|item| - 1] == ds[|ds| - 1]; assert IsDigit(ds[|ds| - 1]); }
    }
    TrailingDigitsOf(stem, ds);
    assert item[..|item| - |ds|] == stem;
    assert stem[|stem| - |suffix|..] == suffix;
    assert stem[..|stem| - |suffix|] == w;
  }

  lemma TrailingDigitsOf(stem: string, ds: string)
    requires stem != [] && !IsDigit(stem[|stem| - 1])
    requires AllChars(ds, IsDigit)
    ensures TrailingDigits(stem + ds) == |ds|
    decreases |ds|
  {
    if ds != [] {
      assert (stem + ds)[..|stem + ds| - 1] == stem + ds[..|ds| - 1];
      TrailingDigitsOf(stem, ds[..|ds| - 1]);
    } else {
      assert stem + ds == stem;
    }
  }

  /**
   * The colour the judge reads from an item: the cube pattern, else the mug
   * pattern, else for any other mug the text before its first `_`; an empty
   * word, or an item matching none of these, adds no colour.
   */
  function ColourOf(item: string): (r: Option<string>)
    ensures r.Some? ==> r.value != []
  {
    match KindColour(item, "cube")
    case Some(c) => Some(c)
    case None =>
      match KindColour(item, "mug")
      case Some(c) => Some(c)
      case None =>
        if Contains(item, "mug") then
          var w := Split(item, "_")[0];
          if w == [] then None else Some(w)
        else None
  }

  /** `<colour>_cube<digits>` has colour `<colour>`. */
  lemma CubeColour(colour: string, ds: string)
    requires colour != [] && AllChars(colour, IsWordChar)
    requires AllChars(ds, IsDigit)
    ensures ColourOf(colour + "_" + "cube" + ds) == Some(colour)
  {
    KindColourOf(colour, "cube", ds);
  }

  /** `<colour>_mug<digits>` has colour `<colour>`. */
  lemma MugColour(colour: string, ds: string)
    requires colour != [] && AllChars(colour, IsWordChar)
    requires AllChars(ds, IsDigit)
    ensures ColourOf(colour + "_" + "mug" + ds) == Some(colour)
  {
    var item := colour + "_" + "mug" + ds;
    KindColourOf(colour, "mug", ds);
    assert KindColour(item, "cube") == None by {
      var stem := colour + "_" + "mug";
      assert item == stem + ds;
      assert item[|item| - 1] != '\n' by {
        if ds != [] { assert IsDigit(ds[|ds| - 1]); assert item[|item| - 1] == ds[|ds| - 1]; }
      }
      TrailingDigitsOf(stem, ds);
      assert item[..|item| - |ds|] == stem;
      assert stem[|stem| - 1] == 'g';
    }
  }

  // ----- drawer layers and their colours -----

  /** The keys of `drawer_items`: the drawers of the items. */
  function DrawersOf(items: seq<(string, string)>): (ds: set<string>)
  {
    if items == [] then {} else DrawersOf(items[..|items| - 1]) + {items[|items| - 1].1}
  }

  /** The colours read from the items in drawer `d`. */
  function ColoursAt(items: seq<(string, string)>, d: string): set<string>
  {
    if items == [] then {}
    else
      var it := items[|items| - 1];
      var c := ColourOf(it.0);
      ColoursAt(items[..|items| - 1], d) + (if it.1 == d && c.Some? then {c.value} else {})
  }

  /** A drawer holding none of the items has no colours. */
  lemma {:induction false} ColoursAtEmpty(items: seq<(string, string)>, d: string)
    requires d !in DrawersOf(items)
    ensures ColoursAt(items, d) == {}
  {
    if items != [] {
      ColoursAtEmpty(items[..|items| - 1], d);
    }
  }

  /** The drawer layers whose items show exactly one colour. */
  function SingleColourLayers(g: Graph): set<string>
  {
    var items := ItemsInDrawers(g, Objects(g));
    set d | d in DrawersOf(items) && |ColoursAt(items, d)| == 1
  }

  /** P3 in tenths: 0.2, 0.5 and 1.0 for one, two and three single-colour layers, else 0.0. */
  function P3Tenths(k: nat): nat
  {
    if k == 1 then 2 else if k == 2 then 5 else if k == 3 then 10 else 0
  }

  /** P3 as `str()` prints a float with one decimal: "0.2", "0.5", "1.0" or "0.0". */
  function P3Text(k: nat): string
  {
    if k == 1 then "0.2" else if k == 2 then "0.5" else if k == 3 then "1.0" else "0.0"
  }

  /** `f"{P1}/{P2}/{P3}/{S}"`. */
  function Detail(p1: nat, p2: nat, k: nat, s: nat): string
  {
    NatToString(p1) + "/" + NatToString(p2) + "/" + P3Text(k) + "/" + NatToString(s)
  }

  /**
   * The judge: nothing when a tracked object has no location (the TypeError);
   * otherwise success when no other item is in a drawer, every object is in a
   * drawer and three layers are single-coloured.
   */
  function ByColour(g: Graph): (r: Option<Judgement>)
    ensures r.None? <==> !AllLocated(g)
    ensures r.Some? ==> Consistent(r.value) && r.value.progress.total == |Objects(g)|
    ensures r.Some? ==> r.value.progress.correct.Whole? && r.value.progress.correct.n <= r.value.progress.total
  {
    if !AllLocated(g) then None
    else
      var objs := Objects(g);
      var s, p2 := |objs|, |ItemsInDrawers(g, objs)|;
      var p1 := if Unrelated(g.edges, Allowed(g)) == [] then 1 else 0;
      var k := |SingleColourLayers(g)|;
      var detail := Detail(p1, p2, k, s);
      if p1 == 1 && p2 == s && P3Tenths(k) == 10 then Some(Judgement(true, Progress(Whole(p2), s, Some(detail)), None))
      else Some(Judgement(false, Progress(Whole(p2), s, Some(detail)), Some(ColoursIncomplete(detail))))
  }

  /** The judge's loops: P2 with `items_in_drawers`, P1 over the edges, then the drawer groups and their colours. */
  method JudgeByColour(g: Graph) returns (r: Option<Judgement>)
    ensures r == ByColour(g)
  {
    var cubes, mugs, loc := TrackObjects(g);
    var objs := cubes + mugs;
    var located, items := PlaceInDrawers(g, objs, loc);
    if !located {
      assert exists k :: 0 <= k < |objs| && Location(g, objs[k]).None?;
      return None;
    }
    assert AllLocated(g);
    var p2 := |items|;
    var allowed := set o | o in objs;
    assert allowed == Allowed(g);
    var unrelated := CollectUnrelated(g.edges, allowed);
    var groups := GroupColours(items);
    var k := CountSingleColour(groups);
    assert Singles(groups, groups.Keys) == SingleColourLayers(g);
    var p1 := if unrelated == [] then 1 else 0;
    var detail := Detail(p1, p2, k, |objs|);
    if p1 == 1 && p2 == |objs| && P3Tenths(k) == 10 {
      r := Some(Judgement(true, Progress(Whole(p2), |objs|, Some(detail)), None));
    } else {
      r := Some(Judgement(false, Progress(Whole(p2), |objs|, Some(detail)), Some(ColoursIncomplete(detail))));
    }
  }

  /**
   * The P2 loop: stops at the first object without a location (the
   * TypeError), otherwise collects the objects in drawers with their drawer.
   */
  method PlaceInDrawers(g: Graph, objs: seq<string>, loc: map<string, Option<string>>)
      returns (located: bool, items: seq<(string, string)>)
    requires forall k :: 0 <= k < |objs| ==> objs[k] in loc && loc[objs[k]] == Location(g, objs[k])
    ensures located <==> forall k :: 0 <= k < |objs| ==> Location(g, objs[k]).Some?
    ensures located ==> items == ItemsInDrawers(g, objs)
  {
    items := [];
    var i := 0;
    while i < |objs|
      invariant 0 <= i <= |objs|
      invariant forall k :: 0 <= k < i ==> Location(g, objs[k]).Some?
      invariant items == ItemsInDrawers(g, objs[..i])
    {
      var o := objs[i];
      assert objs[..i + 1][..i] == objs[..i];
      var l := loc[o];
      if l.None? {
        return false, items;
      }
      if InDrawer(l.value) {
        items := items + [(o, l.value)];
      }
      i := i + 1;
    }
    assert objs[..|objs|] == objs;
    located := true;
  }

  /** `drawer_items`, with each drawer's items replaced by the colours read from them. */
  method GroupColours(items: seq<(string, string)>) returns (groups: map<string, set<string>>)
    ensures Grouped(items, groups)
  {
    groups := map[];
    var j := 0;
    while j < |items|
      invariant 0 <= j <= |items|
      invariant Grouped(items[..j], groups)
    {
      assert items[..j + 1] == items[..j] + [items[j]];
      var (name, d) := items[j];
      var c := ColourOf(name);
      var before := if d in groups then groups[d] else {};
      GroupStep(items[..j], items[j], groups);
      groups := groups[d := before + (if c.Some? then {c.value} else {})];
      j := j + 1;
    }
    assert items[..|items|] == items;
  }

  /** `groups` maps each drawer of the items to the colours read from its items. */
  predicate Grouped(items: seq<(string, string)>, groups: map<string, set<string>>)
  {
    groups.Keys == DrawersOf(items) && forall d :: d in groups ==> groups[d] == ColoursAt(items, d)
  }

  /** One more item joins its drawer's group with its colour. */
  lemma GroupStep(items: seq<(string, string)>, it: (string, string), groups: map<string, set<string>>)
    requires Grouped(items, groups)
    ensures var d, c := it.1, ColourOf(it.0);
            var before := if d in groups then groups[d] else {};
            Grouped(items + [it], groups[d := before + (if c.Some? then {c.value} else {})])
  {
    var d := it.1;
    assert (items + [it])[..|items|] == items;
    if d !in groups {
      ColoursAtEmpty(items, d);
    }
  }

  /** The P1 loop: the items of the edges that put something else into a drawer. */
  method CollectUnrelated(edges: seq<string>, allowed: set<string>) returns (unrelated: seq<string>)
    ensures unrelated == Unrelated(edges, allowed)
  {
    unrelated := [];
    var j := 0;
    while j < |edges|
      invariant 0 <= j <= |edges|
      invariant unrelated == Unrelated(edges[..j], allowed)
    {
      assert edges[..j + 1][..j] == edges[..j];
      var m := EdgeMatch(edges[j]);
      if m.Some? && InDrawer(m.value.1) && m.value.0 !in allowed {
        unrelated := unrelated + [m.value.0];
      }
      j := j + 1;
    }
    assert edges[..|edges|] == edges;
  }

  /** The keys among `keys` whose colour set has exactly one colour. */
  function Singles(groups: map<string, set<string>>, keys: set<string>): set<string>
  {
    set d | d in keys && d in groups && |groups[d]| == 1
  }

  /** `layers_with_consistent_colors`: the groups with exactly one colour. */
  method CountSingleColour(groups: map<string, set<string>>) returns (k: nat)
    ensures k == |Singles(groups, groups.Keys)|
  {
    k := 0;
    var rem := groups.Keys;
    while rem != {}
      invariant rem <= groups.Keys
      invariant k + |Singles(groups, rem)| == |Singles(groups, groups.Keys)|
      decreases |rem|
    {
      var d :| d in rem;
      var rest := rem - {d};
      assert Singles(groups, rem) == Singles(groups, rest) + (if |groups[d]| == 1 then {d} else {});
      if |groups[d]| == 1 {
        k := k + 1;
      }
      rem := rest;
    }
    assert Singles(groups, rem) == {};
  }

  // ----- what the judge promises -----

  /**
   * On a scene where every object is located, the judge succeeds exactly when
   * no other item is in a drawer, every cube and mug is in a drawer and
   * exactly three drawer layers hold a single colour.
   */
  lemma ByColourSuccess(g: Graph)
    requires AllLocated(g)
    ensures ByColour(g).Some?
    ensures ByColour(g).value.success <==>
              (forall i :: 0 <= i < |g.edges| ==> !IntrudesDrawer(g.edges[i], Allowed(g))) &&
              (forall o :: o in Objects(g) ==> AtDrawer(g, o)) &&
              |SingleColourLayers(g)| == 3
  {
    InDrawersAll(g, Objects(g));
    ByColourVerdict(g);
  }

  /** The three tests of the verdict, read off the judge's definition. */
  lemma ByColourVerdict(g: Graph)
    requires AllLocated(g)
    ensures ByColour(g).Some?
    ensures ByColour(g).value.success ==
              (Unrelated(g.edges, Allowed(g)) == [] && |ItemsInDrawers(g, Objects(g))| == |Objects(g)| &&
               |SingleColourLayers(g)| == 3)
  {
    var k := |SingleColourLayers(g)|;
    assert P3Tenths(k) == 10 <==> k == 3;
  }

  /** `float()` of a one-decimal text `a.b`. */
  lemma OneDecimal(a: char, b: char)
    requires IsDigit(a) && IsDigit(b)
    ensures SuccessRate.ParseFloat([a, '.', b]) == Some(DigitValue(a) as real + DigitValue(b) as real / 10.0)
  {
    var t := [a, '.', b];
    StripNoop(t);
    assert Strip(t) == t;
    assert t[0] != '-' && t[0] != '+';
    RunOfConcat([a], ['.', b], IsDigit);
    assert [a] + ['.', b] == t;
    assert Run(t, IsDigit) == 1;
    assert t[..1] == [a] && t[2..] == [b];
    assert DigitsValue([a]) == DigitValue(a);
    assert SuccessRate.Fraction([b]) == DigitValue(b) as real / 10.0 by {
      assert DigitsValue([b]) == DigitValue(b);
      assert SuccessRate.Pow10(1) == 10;
    }
  }

  /** The printed P3 has no slash and reads back as its value in tenths. */
  lemma P3TextValue(k: nat)
    ensures '/' !in P3Text(k)
    ensures SuccessRate.ParseFloat(P3Text(k)) == Some(P3Tenths(k) as real / 10.0)
  {
    var t, a, b := P3Text(k), P3Text(k)[0], P3Text(k)[2];
    assert t == [a, '.', b];
    assert 10 * DigitValue(a) + DigitValue(b) == P3Tenths(k);
    PrintedTenths(t, a, b, P3Tenths(k));
  }

  /** A digit, a dot and a digit hold no slash and read back as the tenths they spell. */
  lemma PrintedTenths(s: string, a: char, b: char, v: nat)
    requires IsDigit(a) && IsDigit(b) && s == [a, '.', b]
    requires 10 * DigitValue(a) + DigitValue(b) == v
    ensures '/' !in s
    ensures SuccessRate.ParseFloat(s) == Some(v as real / 10.0)
  {
    OneDecimal(a, b);
  }

  /** The detail string is read back by the success-rate analyser as P2 over S. */
  lemma ByColourProgress(g: Graph)
    requires AllLocated(g)
    ensures ByColour(g).Some? && ByColour(g).value.progress.detail.Some?
    ensures var p := ByColour(g).value.progress;
            SuccessRate.ParseProgress(p.detail.value) ==
              if p.total > 0 then Some((p.correct.n as real, p.total)) else None
  {
    var objs := Objects(g);
    var s, p2 := |objs|, |ItemsInDrawers(g, objs)|;
    var p1 := if Unrelated(g.edges, Allowed(g)) == [] then 1 else 0;
    var k := |SingleColourLayers(g)|;
    P3TextValue(k);
    SuccessRate.JoinFour(NatToString(p1), NatToString(p2), P3Text(k), NatToString(s));
    SuccessRate.FourFieldProgress(NatToString(p1), NatToString(p2), P3Text(k), NatToString(s));
    NatToStringRoundTrip(p1);
    NatToStringRoundTrip(p2);
    NatToStringRoundTrip(s);
  }
}
