// `judge_type_3_items_to_different_drawers` of
// report_analysis/Auto_extract_report_data_batch.py: the items a goal names
// ("place the milk, the popcorn, and the book into different drawer layers")
// must each end up alone in a drawer layer of its own. A drawer holding one
// item scores 1.0, a shared drawer 0.5 in all, and everything in a single
// drawer 0.8; scores are kept in tenths.
module DrawerItems {
  import opened Text
  import opened SceneAnalysis
  import opened ReportScene

  // ----- the items a goal names -----

  const IntoDrawers := " into different drawer"

  /**
   * `(.+?) into different drawer` with the group starting at `j`: the
   * shortest group ending at `p` or later, on one line, that the phrase follows.
   */
  function LazyGroup(t: string, j: nat, p: nat): (r: Option<string>)
    requires j < p
    ensures r.Some? ==> r.value != []
    decreases |t| + 1 - p
  {
    if p > |t| || t[p - 1] == '\n' then None
    else if OccursAt(t, IntoDrawers, p) then Some(t[j..p])
    else LazyGroup(t, j, p + 1)
  }

  /** `place (?:the )?(.+?) into different drawer` at the head of `t`; the optional `the ` is tried first. */
  function PlaceMatch(t: string): Option<string>
  {
    if !StartsWith(t, "place ") then None
    else
      var withThe := if OccursAt(t, "the ", 6) then LazyGroup(t, 10, 11) else None;
      if withThe.Some? then withThe else LazyGroup(t, 6, 7)
  }

  /**
   * The length of a `,?\s+and\s+|,\s*` match at the head of `t`, or 0. The
   * whitespace runs are greedy and a shorter one leaves whitespace where
   * `and` is needed, so only the longest runs matter.
   */
  function SeparatorLen(t: string): (n: nat)
    ensures n <= |t|
  {
    var c := if t != [] && t[0] == ',' then 1 else 0;
    var w := Run(t[c..], IsSpace);
    var q := c + w;
    if w > 0 && OccursAt(t, "and", q) && Run(t[q + 3..], IsSpace) > 0 then q + 3 + Run(t[q + 3..], IsSpace)
    else if c == 1 then 1 + Run(t[1..], IsSpace)
    else 0
  }

  /** Where the first separator at or after `p` starts, if any; `m` gives the length of the separator a string starts with, 0 for none. */
  function NextSeparator(s: string, m: string -> nat, p: nat): (r: Option<nat>)
    requires p <= |s|
    ensures r.Some? ==> p <= r.value < |s| && m(s[r.value..]) > 0
    decreases |s| - p
  {
    if p == |s| then None
    else if m(s[p..]) > 0 then Some(p)
    else NextSeparator(s, m, p + 1)
  }

  /** `re.split` of `s` at the leftmost, non-overlapping separators that `m` measures. */
  function SplitBy(s: string, m: string -> nat): (parts: seq<string>)
    requires forall t :: m(t) <= |t|
    ensures |parts| >= 1
    decreases |s|
  {
    match NextSeparator(s, m, 0)
    case None => [s]
    case Some(i) => [s[..i]] + SplitBy(s[i + m(s[i..])..], m)
  }

  /** `re.split(r',?\s+and\s+|,\s*', s)`. */
  function SplitItems(s: string): (parts: seq<string>)
    ensures |parts| >= 1
  {
    SplitBy(s, SeparatorLen)
  }

  /** `item.strip().replace("the ", "").replace(".", "")`, lowered. */
  function CleanItem(piece: string): string
  {
    Lower(ReplaceAll(ReplaceAll(Strip(piece), "the ", ""), ".", ""))
  }

  /** The pieces `clean` maps to something, cleaned, in order. */
  function KeptCleaned(pieces: seq<string>, clean: string -> string): (items: seq<string>)
    ensures forall x :: x in items ==> x != []
  {
    if pieces == [] then []
    else
      var init := KeptCleaned(pieces[..|pieces| - 1], clean);
      var c := clean(pieces[|pieces| - 1]);
      if c != [] then init + [c] else init
  }

  /** `[item.strip()... for item in items_raw if item.strip()]`, cleaned as `CleanItem` does. */
  function CleanItems(pieces: seq<string>): (items: seq<string>)
    ensures forall x :: x in items ==> x != []
  {
    KeptCleaned(pieces, CleanItem)
  }

  const CommonItems: seq<string> := ["milk", "popcorn", "book", "apple", "banana", "orange", "bread", "cheese"]

  /** The common items that occur in `l`, in the order of `cs`. */
  function CommonIn(l: string, cs: seq<string>): (r: seq<string>)
    ensures forall x :: x in r <==> x in cs && Contains(l, x)
  {
    if cs == [] then []
    else
      var init := CommonIn(l, cs[..|cs| - 1]);
      var c := cs[|cs| - 1];
      assert forall x :: x in cs <==> x in cs[..|cs| - 1] || x == c;
      if Contains(l, c) then init + [c] else init
  }

  /**
   * `items_to_place`: the listed items when the lowered goal says "place
   * ... into different drawer", otherwise the common items it mentions.
   */
  function ItemsToPlace(goal: string): (items: seq<string>)
    ensures forall x :: x in items ==> x != []
    ensures Search(Lower(goal), PlaceMatch, 0).None? ==>
              forall x :: x in items <==> x in CommonItems && Contains(Lower(goal), x)
  {
    var l := Lower(goal);
    match Search(l, PlaceMatch, 0)
    case Some((_, text)) => CleanItems(SplitItems(text))
    case None =>
      assert forall x :: x in CommonItems ==> x != [];
      CommonIn(l, CommonItems)
  }

  // ----- nodes and edges standing for the named items -----

  /** `name == base or name.endswith('_' + base)`. */
  predicate NamesItem(name: string, base: string) { name == base || EndsWith(name, "_" + base) }

  /** The first named item that `name` stands for. */
  function FirstItem(items: seq<string>, name: string): (r: Option<string>)
    ensures r.Some? ==> r.value in items && NamesItem(name, r.value)
    ensures r.None? <==> forall b :: b in items ==> !NamesItem(name, b)
  {
    if items == [] then None
    else if NamesItem(name, items[0]) then Some(items[0])
    else
      assert forall b :: b in items <==> b == items[0] || b in items[1..];
      FirstItem(items[1..], name)
  }

  /** `allowed_actual_items`: the lowered nodes that stand for a named item. */
  function AllowedNames(nodes: seq<string>, items: seq<string>): set<string>
  {
    set n | n in nodes && FirstItem(items, Lower(n)).Some? :: Lower(n)
  }

  /** `drawer_layers`: the nodes whose lowered name says "drawer", and the drawer locations of the edges. */
  function DrawerLayers(g: Graph): set<string>
  {
    (set n | n in g.nodes && InDrawer(Lower(n))) + DrawerLocations(g.edges)
  }

  /** An edge putting into a drawer an item, lowered, that no allowed node stands for. */
  predicate Intrudes(edge: string, allowed: set<string>)
  {
    EdgeMatch(edge).Some? && InDrawer(Lower(EdgeMatch(edge).value.1)) && Lower(EdgeMatch(edge).value.0) !in allowed
  }

  /** `unrelated_in_drawer`: the lowered items of the intruding edges, in edge order. */
  function Intruders(edges: seq<string>, allowed: set<string>): (r: seq<string>)
    ensures forall x :: x in r ==> x !in allowed
    ensures r == [] <==> forall i :: 0 <= i < |edges| ==> !Intrudes(edges[i], allowed)
  {
    if edges == [] then []
    else
      var init := edges[..|edges| - 1];
      var e := edges[|edges| - 1];
      assert forall i :: 0 <= i < |init| ==> init[i] == edges[i];
      var r := Intruders(init, allowed);
      if Intrudes(e, allowed) then r + [Lower(EdgeMatch(e).value.0)] else r
  }

  // ----- where each named item was last seen -----

  /** The named item an edge puts into a drawer, with that drawer, both lowered. */
  function DrawerEdge(items: seq<string>, edge: string): Option<(string, string)>
  {
    match EdgeMatch(edge)
    case None => None
    case Some((item, loc)) =>
      var b := FirstItem(items, Lower(item));
      if b.Some? && InDrawer(Lower(loc)) then Some((b.value, Lower(loc))) else None
  }

  /** The keys of a dict kept as its (key, value) pairs in insertion order. */
  function KeysOf(ps: seq<(string, string)>): (ks: seq<string>)
    ensures |ks| == |ps|
  {
    if ps == [] then [] else [ps[0].0] + KeysOf(ps[1..])
  }

  /** The values of such a dict, in the same order. */
  function ValuesOf(ps: seq<(string, string)>): (vs: seq<string>)
    ensures |vs| == |ps|
  {
    if ps == [] then [] else ValuesOf(ps[..|ps| - 1]) + [ps[|ps| - 1].1]
  }

  /** `d.get(key)`. */
  function Lookup(ps: seq<(string, string)>, key: string): (r: Option<string>)
    ensures r.Some? <==> key in KeysOf(ps)
  {
    if ps == [] then None
    else if ps[0].0 == key then Some(ps[0].1)
    else Lookup(ps[1..], key)
  }

  /** `d[key] = value`: an existing key keeps its place, a new one goes last. */
  function Assign(ps: seq<(string, string)>, key: string, value: string): seq<(string, string)>
  {
    if ps == [] then [(key, value)]
    else if ps[0].0 == key then [(key, value)] + ps[1..]
    else [ps[0]] + Assign(ps[1..], key, value)
  }

  /** An assignment sets its key, leaves every other key's value, and adds its key once. */
  lemma {:induction false} AssignFacts(ps: seq<(string, string)>, key: string, value: string)
    ensures KeysOf(Assign(ps, key, value)) == if key in KeysOf(ps) then KeysOf(ps) else KeysOf(ps) + [key]
    ensures Lookup(Assign(ps, key, value), key) == Some(value)
    ensures forall x :: x != key ==> Lookup(Assign(ps, key, value), x) == Lookup(ps, x)
  {
    if ps != [] && ps[0].0 != key {
      AssignFacts(ps[1..], key, value);
    }
  }

  /** `items_locations`: each named item with the drawer of the last edge putting it into one. */
  function ItemLocations(edges: seq<string>, items: seq<string>): seq<(string, string)>
  {
    if edges == [] then []
    else
      var ps := ItemLocations(edges[..|edges| - 1], items);
      match DrawerEdge(items, edges[|edges| - 1])
      case None => ps
      case Some((b, d)) => Assign(ps, b, d)
  }

  /** Every key of `items_locations` is a named item, each once, and every value a drawer. */
  lemma {:induction false} ItemLocationsKeys(edges: seq<string>, items: seq<string>)
    ensures Distinct(KeysOf(ItemLocations(edges, items)))
    ensures forall k :: k in KeysOf(ItemLocations(edges, items)) ==> k in items
  {
    if edges != [] {
      var init := edges[..|edges| - 1];
      ItemLocationsKeys(init, items);
      var ps := ItemLocations(init, items);
      match DrawerEdge(items, edges[|edges| - 1])
      case None =>
      case Some((b, d)) =>
        AssignFacts(ps, b, d);
    }
  }

  /** The edge that last puts a named item into a drawer decides where it is. */
  lemma {:induction false} LastDrawerEdgeWins(edges: seq<string>, items: seq<string>, i: nat, b: string, d: string)
    requires i < |edges| && DrawerEdge(items, edges[i]) == Some((b, d))
    requires forall j :: i < j < |edges| ==> DrawerEdge(items, edges[j]).None? || DrawerEdge(items, edges[j]).value.0 != b
    ensures Lookup(ItemLocations(edges, items), b) == Some(d)
  {
    var init := edges[..|edges| - 1];
    var ps := ItemLocations(init, items);
    if i < |edges| - 1 {
      assert forall j :: i < j < |init| ==> init[j] == edges[j];
      LastDrawerEdgeWins(init, items, i, b, d);
      match DrawerEdge(items, edges[|edges| - 1])
      case None =>
      case Some((b', d')) =>
        AssignFacts(ps, b', d');
    } else {
      AssignFacts(ps, b, d);
    }
  }

  /** A named item no edge puts into a drawer has no location. */
  lemma {:induction false} NoDrawerEdgeNoLocation(edges: seq<string>, items: seq<string>, b: string)
    requires forall j :: 0 <= j < |edges| ==> DrawerEdge(items, edges[j]).None? || DrawerEdge(items, edges[j]).value.0 != b
    ensures Lookup(ItemLocations(edges, items), b).None?
  {
    if edges != [] {
      var init := edges[..|edges| - 1];
      assert forall j :: 0 <= j < |init| ==> init[j] == edges[j];
      NoDrawerEdgeNoLocation(init, items, b);
      match DrawerEdge(items, edges[|edges| - 1])
      case None =>
      case Some((b', d')) =>
        AssignFacts(ItemLocations(init, items), b', d');
    }
  }

  // ----- drawers and their items -----

  /** `drawer_to_items`: each drawer with the items in it, in order of first use. */
  type Groups = seq<(string, seq<string>)>

  /** The drawer `d` is a key of the groups. */
  predicate HasGroup(gs: Groups, d: string)
  {
    gs != [] && (gs[0].0 == d || HasGroup(gs[1..], d))
  }

  /** `drawer_to_items[d].append(item)`, opening the group of `d` when it is new. */
  function AddTo(gs: Groups, d: string, item: string): (r: Groups)
    ensures |r| == |gs| + (if HasGroup(gs, d) then 0 else 1)
  {
    if gs == [] then [(d, [item])]
    else if gs[0].0 == d then [(d, gs[0].1 + [item])] + gs[1..]
    else [gs[0]] + AddTo(gs[1..], d, item)
  }

  /** The grouping loop over `items_locations`. */
  function GroupsOf(ps: seq<(string, string)>): Groups
  {
    if ps == [] then []
    else
      var p := ps[|ps| - 1];
      AddTo(GroupsOf(ps[..|ps| - 1]), p.1, p.0)
  }

  /** The score in tenths: 10 for a drawer holding one item, 5 for a shared one. */
  function Score(gs: Groups): nat
  {
    if gs == [] then 0 else (if |gs[0].1| == 1 then 10 else 5) + Score(gs[1..])
  }

  /** `shared_drawers`: the drawers holding more than one item. */
  function Shared(gs: Groups): nat
  {
    if gs == [] then 0 else (if |gs[0].1| > 1 then 1 else 0) + Shared(gs[1..])
  }

  /** How many items the groups hold in all. */
  function Size(gs: Groups): nat
  {
    if gs == [] then 0 else |gs[0].1| + Size(gs[1..])
  }

  predicate NonEmptyGroups(gs: Groups) { forall k :: 0 <= k < |gs| ==> gs[k].1 != [] }

  /** Every drawer's score and its share count add up to 10: a full point, or half a point and a shared drawer. */
  lemma {:induction false} ScoreShared(gs: Groups)
    requires NonEmptyGroups(gs)
    ensures Score(gs) + 5 * Shared(gs) == 10 * |gs|
  {
    if gs != [] {
      NonEmptyTail(gs);
      ScoreShared(gs[1..]);
    }
  }

  /** Adding an item keeps the groups non-empty, adds one to their size and opens at most the group of its drawer. */
  lemma {:induction false} AddToFacts(gs: Groups, d: string, item: string)
    requires NonEmptyGroups(gs)
    ensures NonEmptyGroups(AddTo(gs, d, item))
    ensures Size(AddTo(gs, d, item)) == Size(gs) + 1
    ensures forall x :: HasGroup(AddTo(gs, d, item), x) <==> HasGroup(gs, x) || x == d
    ensures Shared(AddTo(gs, d, item)) == 0 <==> Shared(gs) == 0 && !HasGroup(gs, d)
  {
    if gs != [] && gs[0].0 != d {
      AddToFacts(gs[1..], d, item);
      var r := AddTo(gs, d, item);
      assert r[1..] == AddTo(gs[1..], d, item);
      forall k | 0 <= k < |r| ensures r[k].1 != [] {
        if k > 0 { assert r[k] == r[1..][k - 1]; }
      }
    }
  }

  /** The groups hold every located item once, none of them empty, under the drawers the items are in. */
  lemma {:induction false} GroupsOfFacts(ps: seq<(string, string)>)
    ensures NonEmptyGroups(GroupsOf(ps))
    ensures Size(GroupsOf(ps)) == |ps|
    ensures forall x :: HasGroup(GroupsOf(ps), x) <==> x in ValuesOf(ps)
    ensures Shared(GroupsOf(ps)) == 0 <==> Distinct(ValuesOf(ps))
  {
    if ps != [] {
      var init, p := ps[..|ps| - 1], ps[|ps| - 1];
      GroupsOfFacts(init);
      AddToFacts(GroupsOf(init), p.1, p.0);
      DistinctSnoc(ValuesOf(init), p.1);
    }
  }

  lemma DistinctSnoc(s: seq<string>, x: string)
    ensures Distinct(s + [x]) <==> Distinct(s) && x !in s
  {
    var t := s + [x];
    if x in s {
      var k :| 0 <= k < |s| && s[k] == x;
      assert t[k] == t[|s|];
    }
    assert forall i :: 0 <= i < |s| ==> s[i] == t[i];
  }

  lemma NonEmptyTail(gs: Groups)
    requires gs != [] && NonEmptyGroups(gs)
    ensures NonEmptyGroups(gs[1..])
  {
    forall k | 0 <= k < |gs[1..]| ensures gs[1..][k].1 != [] { assert gs[1..][k] == gs[k + 1]; }
  }

  /** With no shared drawer and no empty group, there are as many drawers as items. */
  lemma {:induction false} SinglesSize(gs: Groups)
    requires NonEmptyGroups(gs)
    ensures Size(gs) >= |gs|
    ensures Shared(gs) == 0 ==> Size(gs) == |gs|
  {
    if gs != [] {
      NonEmptyTail(gs);
      SinglesSize(gs[1..]);
      assert gs[0].1 != [];
    }
  }

  /** Items not found in any drawer, in the order they were named. */
  function Unplaced(items: seq<string>, ps: seq<(string, string)>): (r: seq<string>)
    ensures forall x :: x in r <==> x in items && x !in KeysOf(ps)
  {
    if items == [] then []
    else
      var init := Unplaced(items[..|items| - 1], ps);
      var b := items[|items| - 1];
      assert forall x :: x in items <==> x in items[..|items| - 1] || x == b;
      if b !in KeysOf(ps) then init + [b] else init
  }

  /** At most the first three entries, as the messages list them. */
  function FirstThree(s: seq<string>): (r: seq<string>)
    ensures |r| <= 3 && r <= s
    ensures |s| <= 3 ==> r == s
  {
    if |s| <= 3 then s else s[..3]
  }

  // ----- the judge -----

  /**
   * What the judge returns: no items named, fewer than two drawer layers,
   * an unrelated item in a drawer, everything in one drawer (0.8), success,
   * or the score reached with the figures its message reports.
   */
  function DifferentDrawers(g: Graph, goal: string): (j: Judgement)
    ensures Consistent(j)
    ensures j.progress.total == |ItemsToPlace(goal)|
  {
    var items := ItemsToPlace(goal);
    var n := |items|;
    var layers := |DrawerLayers(g)|;
    var intruders := Intruders(g.edges, AllowedNames(g.nodes, items));
    if items == [] then Judgement(false, Progress(Whole(0), 0, None), Some(NoItemsNamed))
    else if layers < 2 then Judgement(false, Progress(Whole(0), n, None), Some(TooFewDrawers(layers)))
    else if intruders != [] then Judgement(false, Progress(Whole(0), n, None), Some(UnrelatedInDrawers(FirstThree(intruders))))
    else Placement(items, ItemLocations(g.edges, items))
  }

  /** The verdict on where the named items were located: all in one drawer (0.8), success, or the score reached. */
  function Placement(items: seq<string>, ps: seq<(string, string)>): (j: Judgement)
    ensures Consistent(j)
    ensures j.progress.total == |items|
  {
    var n := |items|;
    var gs := GroupsOf(ps);
    if |gs| == 1 && |gs[0].1| == n then Judgement(false, Progress(Tenths(8), n, None), Some(AllInOneDrawer(n)))
    else if Score(gs) == 10 * n && |gs| == n then Judgement(true, Progress(Whole(n), n, None), None)
    else
      var failure := DrawersIncomplete(Score(gs), n, |ps|, Shared(gs), |gs|, FirstThree(Unplaced(items, ps)));
      Judgement(false, Progress(Tenths(Score(gs)), n, None), Some(failure))
  }

  /** At most as many items are located as were named, each counted once; equal exactly when no name repeats and all are located. */
  lemma LocatedCount(keys: seq<string>, items: seq<string>)
    requires Distinct(keys)
    requires forall k :: k in keys ==> k in items
    ensures |keys| <= |items|
    ensures |keys| == |items| <==> Distinct(items) && forall b :: b in items ==> b in keys
  {
    DistinctCard(keys);
    DistinctCard(items);
    SubsetCard(Elems(keys), Elems(items));
    if Distinct(items) && forall b :: b in items ==> b in keys {
      SubsetCard(Elems(items), Elems(keys));
    }
  }

  /**
   * Past the first three checks, the judge succeeds exactly when at least two
   * distinct items are named, every one of them was last put into a drawer,
   * and no two of them share a drawer.
   */
  lemma DifferentDrawersSuccess(g: Graph, goal: string)
    ensures var items := ItemsToPlace(goal);
            var ps := ItemLocations(g.edges, items);
            DifferentDrawers(g, goal).success <==>
              |DrawerLayers(g)| >= 2 && Intruders(g.edges, AllowedNames(g.nodes, items)) == [] &&
              |items| >= 2 && Distinct(items) && (forall b :: b in items ==> Lookup(ps, b).Some?) &&
              Distinct(ValuesOf(ps))
  {
    var items := ItemsToPlace(goal);
    if items != [] {
      ItemLocationsKeys(g.edges, items);
      PlacementSuccess(items, ItemLocations(g.edges, items));
    }
  }

  /** The located items make a success exactly when at least two distinct items are named, all located, in drawers of their own. */
  lemma PlacementSuccess(items: seq<string>, ps: seq<(string, string)>)
    requires items != []
    requires Distinct(KeysOf(ps)) && forall k :: k in KeysOf(ps) ==> k in items
    ensures Placement(items, ps).success <==>
              |items| >= 2 && Distinct(items) && (forall b :: b in items ==> Lookup(ps, b).Some?) && Distinct(ValuesOf(ps))
  {
    LocatedCount(KeysOf(ps), items);
    GroupsVerdict(ps, |items|);
  }

  /** The value of each entry, read through `ValuesOf`. */
  lemma {:induction false} ValuesAt(ps: seq<(string, string)>, i: nat)
    requires i < |ps|
    ensures ValuesOf(ps)[i] == ps[i].1
  {
    if i < |ps| - 1 {
      ValuesAt(ps[..|ps| - 1], i);
    }
  }

  /** Items all located in drawer `d` make one group of drawer `d` holding all of them. */
  lemma {:induction false} OneDrawerGroup(ps: seq<(string, string)>, d: string)
    requires ps != []
    requires forall i :: 0 <= i < |ps| ==> ps[i].1 == d
    ensures |GroupsOf(ps)| == 1 && GroupsOf(ps)[0].0 == d && |GroupsOf(ps)[0].1| == |ps|
  {
    var init := ps[..|ps| - 1];
    if init != [] {
      OneDrawerGroup(init, d);
    }
  }

  /**
   * The special case: the verdict is "all in one drawer", scored 0.8, exactly
   * when every named item was located and all in the same drawer.
   */
  lemma PlacementAllInOne(items: seq<string>, ps: seq<(string, string)>)
    requires items != []
    ensures Placement(items, ps).failure == Some(AllInOneDrawer(|items|)) <==>
              |ps| == |items| && forall i :: 0 <= i < |ps| ==> ps[i].1 == ps[0].1
    ensures Placement(items, ps).failure == Some(AllInOneDrawer(|items|)) ==>
              Placement(items, ps).progress.correct == Tenths(8)
  {
    var gs := GroupsOf(ps);
    GroupsOfFacts(ps);
    if |ps| == |items| && forall i :: 0 <= i < |ps| ==> ps[i].1 == ps[0].1 {
      OneDrawerGroup(ps, ps[0].1);
    }
    if |gs| == 1 && |gs[0].1| == |items| {
      assert Size(gs) == |gs[0].1|;
      forall i | 0 <= i < |ps|
        ensures ps[i].1 == ps[0].1
      {
        ValuesAt(ps, i);
        ValuesAt(ps, 0);
        assert ValuesOf(ps)[i] in ValuesOf(ps) && ValuesOf(ps)[0] in ValuesOf(ps);
        assert HasGroup(gs, ps[i].1) && HasGroup(gs, ps[0].1);
        assert gs[1..] == [];
        assert !HasGroup(gs[1..], ps[i].1) && !HasGroup(gs[1..], ps[0].1);
      }
    }
  }

  /** Past the special case, the score is a full point per drawer holding one item and half a point per shared drawer. */
  lemma PlacementScore(items: seq<string>, ps: seq<(string, string)>)
    requires items != []
    requires Placement(items, ps).failure != Some(AllInOneDrawer(|items|))
    ensures var gs := GroupsOf(ps); var c := Placement(items, ps).progress.correct;
            (c.Whole? && 10 * c.n + 5 * Shared(gs) == 10 * |gs|) || (c.Tenths? && c.t + 5 * Shared(gs) == 10 * |gs|)
  {
    GroupsOfFacts(ps);
    ScoreShared(GroupsOf(ps));
  }

  /** An item of another kind in a drawer fails the task with nothing scored. */
  lemma UnrelatedScoresZero(g: Graph, goal: string)
    requires ItemsToPlace(goal) != [] && |DrawerLayers(g)| >= 2
    requires Intruders(g.edges, AllowedNames(g.nodes, ItemsToPlace(goal))) != []
    ensures !DifferentDrawers(g, goal).success && DifferentDrawers(g, goal).progress.correct == Whole(0)
  {
  }

  /** On the located items: success past the special case exactly when at least two items sit in drawers of their own. */
  lemma GroupsVerdict(ps: seq<(string, string)>, n: nat)
    requires 1 <= n && |ps| <= n
    ensures var gs := GroupsOf(ps);
            (!(|gs| == 1 && |gs[0].1| == n) && Score(gs) == 10 * n && |gs| == n) <==>
              n >= 2 && |ps| == n && Distinct(ValuesOf(ps))
  {
    var gs := GroupsOf(ps);
    GroupsOfFacts(ps);
    SinglesSize(gs);
    ScoreShared(gs);
    if |gs| == 1 {
      assert Size(gs) == |gs[0].1|;
    }
  }

  /** The progress never claims more than the named items: the score is at most one point per item. */
  lemma PlacementBounded(items: seq<string>, ps: seq<(string, string)>)
    requires Distinct(KeysOf(ps)) && forall k :: k in KeysOf(ps) ==> k in items
    ensures WithinTotal(Placement(items, ps).progress)
  {
    var gs := GroupsOf(ps);
    LocatedCount(KeysOf(ps), items);
    GroupsOfFacts(ps);
    SinglesSize(gs);
    ScoreShared(gs);
  }

  /** The judge's progress never claims more than the named items. */
  lemma DifferentDrawersBounded(g: Graph, goal: string)
    ensures WithinTotal(DifferentDrawers(g, goal).progress)
  {
    var items := ItemsToPlace(goal);
    var j := DifferentDrawers(g, goal);
    if j.progress.correct.Tenths? || j.progress.correct.n > 0 {
      ItemLocationsKeys(g.edges, items);
      PlacementBounded(items, ItemLocations(g.edges, items));
    }
  }

  // ----- the judge's loops -----

  /** The judge as its loops run, in the order of the source. */
  method JudgeDifferentDrawers(g: Graph, goal: string) returns (j: Judgement)
    ensures j == DifferentDrawers(g, goal)
  {
    var items := ExtractItems(goal);
    var n := |items|;
    if items == [] {
      return Judgement(false, Progress(Whole(0), 0, None), Some(NoItemsNamed));
    }
    var layers := CollectDrawerLayers(g);
    if |layers| < 2 {
      return Judgement(false, Progress(Whole(0), n, None), Some(TooFewDrawers(|layers|)));
    }
    var ps := LocateItems(g.edges, items);
    var allowed := CollectAllowed(g.nodes, items);
    var intruders := CollectIntruders(g.edges, allowed);
    if intruders != [] {
      return Judgement(false, Progress(Whole(0), n, None), Some(UnrelatedInDrawers(FirstThree(intruders))));
    }
    var gs := GroupByDrawer(ps);
    if |gs| == 1 && |gs[0].1| == n {
      return Judgement(false, Progress(Tenths(8), n, None), Some(AllInOneDrawer(n)));
    }
    var score, shared := ScoreGroups(gs);
    var unplaced := CollectUnplaced(items, ps);
    if score == 10 * n && |gs| == n {
      j := Judgement(true, Progress(Whole(n), n, None), None);
    } else {
      j := Judgement(false, Progress(Tenths(score), n, None),
                     Some(DrawersIncomplete(score, n, |ps|, shared, |gs|, FirstThree(unplaced))));
    }
  }

  /** The item extraction: the cleaned pieces of the listed items, or the common items in the goal. */
  method ExtractItems(goal: string) returns (items: seq<string>)
    ensures items == ItemsToPlace(goal)
  {
    var l := Lower(goal);
    var m := Search(l, PlaceMatch, 0);
    if m.Some? {
      items := CleanPieces(SplitItems(m.value.1));
    } else {
      items := CommonItemsIn(l);
    }
  }

  /** The loop over the split pieces. */
  method CleanPieces(pieces: seq<string>) returns (items: seq<string>)
    ensures items == CleanItems(pieces)
  {
    items := [];
    var i := 0;
    while i < |pieces|
      invariant 0 <= i <= |pieces|
      invariant items == CleanItems(pieces[..i])
    {
      assert pieces[..i + 1][..i] == pieces[..i];
      var item := CleanItem(pieces[i]);
      if item != [] {
        items := items + [item];
      }
      i := i + 1;
    }
    assert pieces[..|pieces|] == pieces;
  }

  /** The loop over the common items. */
  method CommonItemsIn(l: string) returns (items: seq<string>)
    ensures items == CommonIn(l, CommonItems)
  {
    items := [];
    var k := 0;
    while k < |CommonItems|
      invariant 0 <= k <= |CommonItems|
      invariant items == CommonIn(l, CommonItems[..k])
    {
      assert CommonItems[..k + 1][..k] == CommonItems[..k];
      if Contains(l, CommonItems[k]) {
        items := items + [CommonItems[k]];
      }
      k := k + 1;
    }
    assert CommonItems[..|CommonItems|] == CommonItems;
  }

  /** `drawer_layers`: the node loop, then the edge loop. */
  method CollectDrawerLayers(g: Graph) returns (layers: set<string>)
    ensures layers == DrawerLayers(g)
  {
    var fromNodes := DrawerNodes(g.nodes);
    var fromEdges := DrawerLocationsOf(g.edges);
    layers := fromNodes + fromEdges;
  }

  /** The nodes whose lowered name says "drawer". */
  method DrawerNodes(nodes: seq<string>) returns (layers: set<string>)
    ensures layers == set n | n in nodes && InDrawer(Lower(n))
  {
    layers := {};
    var i := 0;
    while i < |nodes|
      invariant 0 <= i <= |nodes|
      invariant layers == set n | n in nodes[..i] && InDrawer(Lower(n))
    {
      assert nodes[..i + 1] == nodes[..i] + [nodes[i]];
      if InDrawer(Lower(nodes[i])) {
        layers := layers + {nodes[i]};
      }
      i := i + 1;
    }
    assert nodes[..|nodes|] == nodes;
  }

  /** The edge loop adding the drawer locations. */
  method DrawerLocationsOf(edges: seq<string>) returns (layers: set<string>)
    ensures layers == DrawerLocations(edges)
  {
    layers := {};
    var k := 0;
    while k < |edges|
      invariant 0 <= k <= |edges|
      invariant layers == DrawerLocations(edges[..k])
    {
      assert edges[..k + 1] == edges[..k] + [edges[k]];
      var m := EdgeMatch(edges[k]);
      if m.Some? && InDrawer(Lower(m.value.1)) {
        layers := layers + {m.value.1};
      }
      k := k + 1;
    }
    assert edges[..|edges|] == edges;
  }

  /** The drawer locations the edges name, as written. */
  function DrawerLocations(edges: seq<string>): set<string>
  {
    set e | e in edges && EdgeMatch(e).Some? && InDrawer(Lower(EdgeMatch(e).value.1)) :: EdgeMatch(e).value.1
  }

  /** The inner loop over the named items, stopping at the first that `name` stands for. */
  method MatchItem(items: seq<string>, name: string) returns (b: Option<string>)
    ensures b == FirstItem(items, name)
  {
    var k := 0;
    while k < |items|
      invariant 0 <= k <= |items|
      invariant FirstItem(items[k..], name) == FirstItem(items, name)
    {
      if NamesItem(name, items[k]) {
        return Some(items[k]);
      }
      assert items[k..][1..] == items[k + 1..];
      k := k + 1;
    }
    return None;
  }

  /** `allowed_actual_items`: the node loop building `item_name_mapping`. */
  method CollectAllowed(nodes: seq<string>, items: seq<string>) returns (allowed: set<string>)
    ensures allowed == AllowedNames(nodes, items)
  {
    allowed := {};
    var i := 0;
    while i < |nodes|
      invariant 0 <= i <= |nodes|
      invariant allowed == AllowedNames(nodes[..i], items)
    {
      assert nodes[..i + 1] == nodes[..i] + [nodes[i]];
      var b := MatchItem(items, Lower(nodes[i]));
      if b.Some? {
        allowed := allowed + {Lower(nodes[i])};
      }
      i := i + 1;
    }
    assert nodes[..|nodes|] == nodes;
  }

  /** `items_locations`: the edge loop, each drawer edge of a named item assigning its drawer. */
  method LocateItems(edges: seq<string>, items: seq<string>) returns (ps: seq<(string, string)>)
    ensures ps == ItemLocations(edges, items)
  {
    ps := [];
    var j := 0;
    while j < |edges|
      invariant 0 <= j <= |edges|
      invariant ps == ItemLocations(edges[..j], items)
    {
      assert edges[..j + 1][..j] == edges[..j];
      var m := EdgeMatch(edges[j]);
      if m.Some? {
        var b := MatchItem(items, Lower(m.value.0));
        var loc := Lower(m.value.1);
        if b.Some? && InDrawer(loc) {
          ps := Assign(ps, b.value, loc);
        }
      }
      j := j + 1;
    }
    assert edges[..|edges|] == edges;
  }

  /** `unrelated_in_drawer`: the edge loop. */
  method CollectIntruders(edges: seq<string>, allowed: set<string>) returns (intruders: seq<string>)
    ensures intruders == Intruders(edges, allowed)
  {
    intruders := [];
    var j := 0;
    while j < |edges|
      invariant 0 <= j <= |edges|
      invariant intruders == Intruders(edges[..j], allowed)
    {
      assert edges[..j + 1][..j] == edges[..j];
      var m := EdgeMatch(edges[j]);
      if m.Some? && InDrawer(Lower(m.value.1)) && Lower(m.value.0) !in allowed {
        intruders := intruders + [Lower(m.value.0)];
      }
      j := j + 1;
    }
    assert edges[..|edges|] == edges;
  }

  /** `drawer_to_items`: the loop over `items_locations`. */
  method GroupByDrawer(ps: seq<(string, string)>) returns (gs: Groups)
    ensures gs == GroupsOf(ps)
  {
    gs := [];
    var i := 0;
    while i < |ps|
      invariant 0 <= i <= |ps|
      invariant gs == GroupsOf(ps[..i])
    {
      assert ps[..i + 1][..i] == ps[..i];
      var (item, location) := ps[i];
      gs := AddTo(gs, location, item);
      i := i + 1;
    }
    assert ps[..|ps|] == ps;
  }

  /** The scoring loop over the drawers, and the count of shared drawers. */
  method ScoreGroups(gs: Groups) returns (score: nat, shared: nat)
    ensures score == Score(gs) && shared == Shared(gs)
  {
    score, shared := 0, 0;
    var i := 0;
    while i < |gs|
      invariant 0 <= i <= |gs|
      invariant score + Score(gs[i..]) == Score(gs)
      invariant shared + Shared(gs[i..]) == Shared(gs)
    {
      assert gs[i..][1..] == gs[i + 1..];
      if |gs[i].1| == 1 {
        score := score + 10;
      } else {
        score := score + 5;
      }
      if |gs[i].1| > 1 {
        shared := shared + 1;
      }
      i := i + 1;
    }
  }

  /** `misplaced_items`: the named items without a drawer. */
  method CollectUnplaced(items: seq<string>, ps: seq<(string, string)>) returns (unplaced: seq<string>)
    ensures unplaced == Unplaced(items, ps)
  {
    unplaced := [];
    var i := 0;
    while i < |items|
      invariant 0 <= i <= |items|
      invariant unplaced == Unplaced(items[..i], ps)
    {
      assert items[..i + 1][..i] == items[..i];
      assert items[..i + 1][i] == items[i];
      if items[i] !in KeysOf(ps) {
        unplaced := unplaced + [items[i]];
      }
      i := i + 1;
    }
    assert items[..|items|] == items;
  }
}
