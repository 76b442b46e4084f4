// The scene-graph tool's summary of a scene: which format it is in, the node
// and edge listings, and which of the three boxes can still take objects.
module SceneSummary {
  import opened Text
  import SceneAnalysis

  /** A JSON value of a node or edge list: a string, an integer, or an object with its string fields and its str() text. */
  datatype Item = Str(text: string) | Int(n: int) | Dict(fields: map<string, string>, repr: string)

  /** str(x) of a list entry. */
  function Render(x: Item): string
  {
    match x
    case Str(t) => t
    case Int(n) => IntToString(n)
    case Dict(_, repr) => repr
  }

  function FieldOr(fields: map<string, string>, key: string, default: string): string
  {
    if key in fields then fields[key] else default
  }

  // ----- format test -----

  const DesktopObjects: seq<string> := ["table", "red_box", "yellow_box", "blue_box", "red_cube", "yellow_cube", "blue_cube"]

  /** Some string edge holds an "(on)" or "(in)" relation. */
  predicate HasRelationEdge(edges: seq<Item>)
  {
    exists i :: 0 <= i < |edges| && edges[i].Str? &&
      (Contains(edges[i].text, "(on)") || Contains(edges[i].text, "(in)"))
  }

  /**
   * The desktop simulator's format: never for an empty node list; by the desktop
   * object names when the first node is a string; otherwise by the edges.
   */
  predicate IsDesktopFormat(nodes: seq<Item>, edges: seq<Item>)
  {
    if nodes == [] then false
    else if nodes[0].Str? then exists k :: 0 <= k < |DesktopObjects| && Str(DesktopObjects[k]) in nodes
    else HasRelationEdge(edges)
  }

  /** A scene of string nodes that names the table is in the desktop format, whatever its edges. */
  lemma TableSceneIsDesktop(nodes: seq<Item>, edges: seq<Item>)
    requires nodes != [] && nodes[0].Str? && Str("table") in nodes
    ensures IsDesktopFormat(nodes, edges)
  {
    assert Str(DesktopObjects[0]) in nodes;
  }

  /** A scene of string nodes with none of the desktop names is not, whatever its edges. */
  lemma ForeignNamesAreLegacy(nodes: seq<Item>, edges: seq<Item>)
    requires nodes != [] && nodes[0].Str?
    requires forall k :: 0 <= k < |DesktopObjects| ==> Str(DesktopObjects[k]) !in nodes
    ensures !IsDesktopFormat(nodes, edges)
  {
  }

  // ----- box accessibility -----

  /** The three boxes the accessibility pass knows. */
  datatype Box = BlueBox | RedBox | YellowBox

  function BoxName(b: Box): string
  {
    match b
    case BlueBox => "blue_box"
    case RedBox => "red_box"
    case YellowBox => "yellow_box"
  }

  /** The box a target name denotes, if any. */
  function BoxNamed(t: string): (r: Option<Box>)
    ensures r.Some? ==> BoxName(r.value) == t
  {
    if t == "blue_box" then Some(BlueBox)
    else if t == "red_box" then Some(RedBox)
    else if t == "yellow_box" then Some(YellowBox)
    else None
  }

  lemma BoxNamedOfName(b: Box)
    ensures BoxNamed(BoxName(b)) == Some(b)
  {
    if b == RedBox {
      assert BoxName(b)[0] != "blue_box"[0];
    } else if b == YellowBox {
      assert BoxName(b)[0] != "blue_box"[0];
      assert BoxName(b)[0] != "red_box"[0];
    }
  }

  /** The boxes in the order of their names. */
  const SortedBoxes: seq<Box> := [BlueBox, RedBox, YellowBox]

  /** `(obj, target)` of an edge whose relation is "(on)". */
  function OnPair(x: Item): Option<(string, string)>
  {
    if x.Str? && Contains(x.text, "(on)") then SceneAnalysis.Halves(x.text, "(on)") else None
  }

  /** `(obj, target)` of an edge whose relation is "(in)" and not also "(on)". */
  function InPair(x: Item): Option<(string, string)>
  {
    if x.Str? && !Contains(x.text, "(on)") && Contains(x.text, "(in)") then SceneAnalysis.Halves(x.text, "(in)") else None
  }

  /** The box named by the target of `(obj, target)`, with the object. */
  function EntryOf(p: Option<(string, string)>): Option<(Box, string)>
  {
    if p.Some? && BoxNamed(p.value.1).Some? then Some((BoxNamed(p.value.1).value, p.value.0)) else None
  }

  /** The box an edge puts an object on, with that object. */
  function OnEntry(x: Item): Option<(Box, string)>
  {
    EntryOf(OnPair(x))
  }

  /** The box an edge puts an object in, with that object. */
  function InEntry(x: Item): Option<(Box, string)>
  {
    EntryOf(InPair(x))
  }

  /** An "(on)" edge is never read as an "(in)" edge. */
  lemma OnExcludesIn(x: Item)
    ensures OnPair(x).Some? ==> InPair(x).None?
  {
  }

  lemma BoxListed(b: Box)
    ensures b in SortedBoxes
  {
    assert SortedBoxes[0] == BlueBox && SortedBoxes[1] == RedBox && SortedBoxes[2] == YellowBox;
  }

  /** The objects that `entry` puts at box `b`, in edge order. */
  function Placed(edges: seq<Item>, entry: Item -> Option<(Box, string)>, b: Box): seq<string>
  {
    if edges == [] then []
    else
      var e := entry(edges[|edges| - 1]);
      Placed(edges[..|edges| - 1], entry, b) + (if e.Some? && e.value.0 == b then [e.value.1] else [])
  }

  /** The objects the edges put on box `b`, in edge order. */
  function OnObjects(edges: seq<Item>, b: Box): seq<string>
  {
    Placed(edges, OnEntry, b)
  }

  /** The objects the edges put in box `b`, in edge order. */
  function InObjects(edges: seq<Item>, b: Box): seq<string>
  {
    Placed(edges, InEntry, b)
  }

  /** The objects standing directly on the table. */
  function OnTable(edges: seq<Item>): set<string>
  {
    if edges == [] then {}
    else
      var x := edges[|edges| - 1];
      OnTable(edges[..|edges| - 1]) + TableEntry(OnPair(x))
  }

  /** A key for each box that `entry` puts something at, holding those objects. */
  function PlacedMap(edges: seq<Item>, entry: Item -> Option<(Box, string)>): map<Box, seq<string>>
  {
    map b | b in SortedBoxes && Placed(edges, entry, b) != [] :: Placed(edges, entry, b)
  }

  /** The `on_box` dictionary: a key for each box that something stands on. */
  function OnBoxes(edges: seq<Item>): map<Box, seq<string>>
  {
    PlacedMap(edges, OnEntry)
  }

  /** The `in_box` dictionary: a key for each box that holds something. */
  function InBoxes(edges: seq<Item>): map<Box, seq<string>>
  {
    PlacedMap(edges, InEntry)
  }

  /** Under a key for each box that has any, `m` holds the objects `entry` puts there. */
  predicate Tallied(m: map<Box, seq<string>>, edges: seq<Item>, entry: Item -> Option<(Box, string)>)
  {
    forall b: Box :: (b in m <==> Placed(edges, entry, b) != []) && (b in m ==> m[b] == Placed(edges, entry, b))
  }

  lemma TalliedIsMap(m: map<Box, seq<string>>, edges: seq<Item>, entry: Item -> Option<(Box, string)>)
    requires Tallied(m, edges, entry)
    ensures m == PlacedMap(edges, entry)
  {
    forall b: Box ensures b in m <==> b in PlacedMap(edges, entry) {
      BoxListed(b);
    }
    assert m.Keys == PlacedMap(edges, entry).Keys;
  }

  /** `dict.setdefault(b, []).append(obj)`. */
  function Append(m: map<Box, seq<string>>, b: Box, obj: string): (r: map<Box, seq<string>>)
    ensures r.Keys == m.Keys + {b}
    ensures r[b] == (if b in m then m[b] else []) + [obj]
    ensures forall c :: c in m && c != b ==> r[c] == m[c]
  {
    m[b := (if b in m then m[b] else []) + [obj]]
  }

  /** The tally after one more edge, which puts `e` somewhere or nowhere. */
  function Record(m: map<Box, seq<string>>, e: Option<(Box, string)>): map<Box, seq<string>>
  {
    if e.Some? then Append(m, e.value.0, e.value.1) else m
  }

  /** Recording each edge in turn keeps the tally. */
  lemma TallyStep(m: map<Box, seq<string>>, edges: seq<Item>, entry: Item -> Option<(Box, string)>, x: Item)
    requires Tallied(m, edges, entry)
    ensures Tallied(Record(m, entry(x)), edges + [x], entry)
  {
    assert (edges + [x])[..|edges|] == edges;
  }

  /** `entry` puts something at `b` exactly when some edge does. */
  lemma {:induction false} PlacedNonEmpty(edges: seq<Item>, entry: Item -> Option<(Box, string)>, b: Box)
    ensures Placed(edges, entry, b) != [] <==>
              exists i :: 0 <= i < |edges| && entry(edges[i]).Some? && entry(edges[i]).value.0 == b
  {
    if edges != [] {
      var init := edges[..|edges| - 1];
      PlacedNonEmpty(init, entry, b);
      assert forall i :: 0 <= i < |init| ==> init[i] == edges[i];
    }
  }

  /** Something stands on `b` exactly when some edge puts it there. */
  lemma OnObjectsNonEmpty(edges: seq<Item>, b: Box)
    ensures OnObjects(edges, b) != [] <==> exists i :: 0 <= i < |edges| && OnEntry(edges[i]).Some? && OnEntry(edges[i]).value.0 == b
  {
    PlacedNonEmpty(edges, OnEntry, b);
  }

  /** A box with nothing on it and fewer than three objects inside. */
  predicate Accessible(edges: seq<Item>, b: Box)
  {
    OnObjects(edges, b) == [] && |InObjects(edges, b)| < 3
  }

  /** The boxes of `boxes` that `keep` holds for, in order. */
  function Kept(boxes: seq<Box>, keep: Box -> bool): (r: seq<Box>)
    ensures |r| <= |boxes|
    ensures forall x :: x in r ==> x in boxes && keep(x)
  {
    if boxes == [] then []
    else (if keep(boxes[0]) then [boxes[0]] else []) + Kept(boxes[1..], keep)
  }

  /** The boxes, in the order given, whose accessibility is `wanted`. */
  function BoxesWhere(edges: seq<Item>, wanted: bool, boxes: seq<Box>): seq<Box>
  {
    Kept(boxes, b => Accessible(edges, b) == wanted)
  }

  /** `sorted()` of a list of boxes without repeats: the boxes it holds, in name order. */
  function InNameOrder(bs: seq<Box>): seq<Box>
  {
    Kept(SortedBoxes, c => c in bs)
  }

  function Names(bs: seq<Box>): (r: seq<string>)
    ensures |r| == |bs|
    ensures forall i :: 0 <= i < |bs| ==> r[i] == BoxName(bs[i])
  {
    if bs == [] then [] else [BoxName(bs[0])] + Names(bs[1..])
  }

  lemma NamesCons(b: Box, bs: seq<Box>)
    ensures Names([b] + bs) == [BoxName(b)] + Names(bs)
  {
    assert ([b] + bs)[1..] == bs;
  }

  function InsideEntry(edges: seq<Item>, b: Box): string
  {
    BoxName(b) + "(内部,已有" + NatToString(|InObjects(edges, b)|) + "/3)"
  }

  function SurfaceEntry(b: Box): string
  {
    BoxName(b) + "(表面)"
  }

  /** The entries `entry` gives for the boxes of `order` that `keep` holds for, in order. */
  function Entries(order: seq<Box>, keep: Box -> bool, entry: Box -> string): seq<string>
  {
    if order == [] then []
    else (if keep(order[0]) then [entry(order[0])] else []) + Entries(order[1..], keep, entry)
  }

  /** The inside entries of the accessible boxes, in the order the boxes are visited. */
  function InsideEntries(edges: seq<Item>, order: seq<Box>): seq<string>
  {
    Entries(order, b => Accessible(edges, b), b => InsideEntry(edges, b))
  }

  /** The surface entries of the accessible boxes, in the order the boxes are visited. */
  function SurfaceEntries(edges: seq<Item>, order: seq<Box>): seq<string>
  {
    Entries(order, b => Accessible(edges, b), SurfaceEntry)
  }

  datatype AccessResult = AccessResult(accessible: seq<string>, blocked: seq<string>, placements: seq<string>,
                                       tableHasSpace: bool, onTable: set<string>,
                                       onBoxes: map<Box, seq<string>>, inBoxes: map<Box, seq<string>>)

  /** The result of the accessibility pass, with the boxes visited in `order` (the set's iteration order). */
  function AccessibilityOf(edges: seq<Item>, order: seq<Box>): AccessResult
  {
    AccessResult(Names(BoxesWhere(edges, true, SortedBoxes)), Names(BoxesWhere(edges, false, SortedBoxes)),
                 ["table(表面)"] + InsideEntries(edges, order) + SurfaceEntries(edges, order),
                 true, OnTable(edges), OnBoxes(edges), InBoxes(edges))
  }

  /** An ordering of the three boxes. */
  predicate IsBoxOrder(order: seq<Box>)
  {
    multiset(order) == multiset(SortedBoxes)
  }

  /** The relation pass: the objects on and in each box, and the objects on the table. */
  method CountRelations(edges: seq<Item>) returns (onBox: map<Box, seq<string>>, inBox: map<Box, seq<string>>, onTable: set<string>)
    ensures onBox == OnBoxes(edges) && inBox == InBoxes(edges) && onTable == OnTable(edges)
  {
    onBox := map[];
    inBox := map[];
    onTable := {};
    var i := 0;
    assert edges[..0] == [];
    while i < |edges|
      invariant 0 <= i <= |edges|
      invariant Tallied(onBox, edges[..i], OnEntry) && Tallied(inBox, edges[..i], InEntry)
      invariant onTable == OnTable(edges[..i])
    {
      var e := edges[i];
      assert edges[..i + 1] == edges[..i] + [e];
      RelationStep(onBox, inBox, onTable, edges[..i], e);
      onBox, inBox, onTable := CountEdge(OnPair(e), InPair(e), onBox, inBox, onTable);
      i := i + 1;
    }
    assert edges[..|edges|] == edges;
    TalliedIsMap(onBox, edges, OnEntry);
    TalliedIsMap(inBox, edges, InEntry);
  }

  /** Counting one more edge keeps the relation tallies. */
  lemma RelationStep(onBox: map<Box, seq<string>>, inBox: map<Box, seq<string>>, onTable: set<string>, edges: seq<Item>, e: Item)
    requires Tallied(onBox, edges, OnEntry) && Tallied(inBox, edges, InEntry) && onTable == OnTable(edges)
    ensures Tallied(Record(onBox, EntryOf(OnPair(e))), edges + [e], OnEntry)
    ensures Tallied(Record(inBox, EntryOf(InPair(e))), edges + [e], InEntry)
    ensures onTable + TableEntry(OnPair(e)) == OnTable(edges + [e])
    ensures OnPair(e).Some? ==> InPair(e).None?
  {
    TallyStep(onBox, edges, OnEntry, e);
    TallyStep(inBox, edges, InEntry, e);
    OnExcludesIn(e);
    assert (edges + [e])[..|edges|] == edges;
  }

  /** Whatever an edge read as `(obj, "table")` puts on the table. */
  function TableEntry(p: Option<(string, string)>): set<string>
  {
    if p.Some? && p.value.1 == "table" then {p.value.0} else {}
  }

  /**
   * One edge of the relation pass, given its "(on)" and "(in)" readings: an
   * "(on)" edge to the table or a box, else an "(in)" edge to a box.
   */
  method CountEdge(on: Option<(string, string)>, inside: Option<(string, string)>,
                   onBox: map<Box, seq<string>>, inBox: map<Box, seq<string>>, onTable: set<string>)
    returns (onBox': map<Box, seq<string>>, inBox': map<Box, seq<string>>, onTable': set<string>)
    requires on.Some? ==> inside.None?
    ensures onBox' == Record(onBox, EntryOf(on)) && inBox' == Record(inBox, EntryOf(inside))
    ensures onTable' == onTable + TableEntry(on)
  {
    onBox', inBox', onTable' := onBox, inBox, onTable;
    if on.Some? {
      var obj, target := on.value.0, on.value.1;
      if target == "table" {
        assert BoxNamed(target).None?;
        onTable' := onTable + {obj};
      } else if BoxNamed(target).Some? {
        onBox' := Append(onBox, BoxNamed(target).value, obj);
      }
    } else if inside.Some? {
      var obj, target := inside.value.0, inside.value.1;
      if BoxNamed(target).Some? {
        inBox' := Append(inBox, BoxNamed(target).value, obj);
      }
    }
  }

  /**
   * `_analyze_3d_desktop_accessibility`: the relation pass; the boxes, in the
   * visiting order, sorted into accessible and blocked, with an inside entry
   * for each accessible one; the table entry in front; a surface entry for
   * each box not blocked; and the two box lists sorted by name.
   */
  method AnalyzeAccessibility(edges: seq<Item>, order: seq<Box>) returns (r: AccessResult)
    requires IsBoxOrder(order)
    ensures r == AccessibilityOf(edges, order)
  {
    var onBox, inBox, onTable := CountRelations(edges);
    var accessible, blocked, placements := SplitBoxes(order, onBox, inBox);
    OpenIsAccessible(edges);
    AllBoxesVisited(order);
    EntriesAgree(order, b => Open(onBox, inBox, b), b => InsideEntryOf(inBox, b),
                 b => Accessible(edges, b), b => InsideEntry(edges, b));
    placements := ["table(表面)"] + placements;
    placements := AppendSurfaceEntries(order, onBox, inBox, blocked, placements);
    EntriesAgree(order, b => Open(onBox, inBox, b), SurfaceEntry, b => Accessible(edges, b), SurfaceEntry);
    var sortedAccessible := SortByName(accessible);
    var sortedBlocked := SortByName(blocked);
    SortedFilter(edges, true, accessible);
    SortedFilter(edges, false, blocked);
    r := AccessResult(sortedAccessible, sortedBlocked, placements, true, onTable, onBox, inBox);
  }

  /** `in_box.get(b, [])`. */
  function Held(inBox: map<Box, seq<string>>, b: Box): seq<string>
  {
    if b in inBox then inBox[b] else []
  }

  /** Accessibility read off the two dictionaries: nothing on top, fewer than three inside. */
  predicate Open(onBox: map<Box, seq<string>>, inBox: map<Box, seq<string>>, b: Box)
  {
    !(b in onBox && |onBox[b]| > 0) && |Held(inBox, b)| < 3
  }

  function InsideEntryOf(inBox: map<Box, seq<string>>, b: Box): string
  {
    BoxName(b) + "(内部,已有" + NatToString(|Held(inBox, b)|) + "/3)"
  }

  /** Read off the dictionaries of a scene, accessibility and the inside entry are the scene's own. */
  lemma OpenIsAccessible(edges: seq<Item>)
    ensures forall b :: Open(OnBoxes(edges), InBoxes(edges), b) == Accessible(edges, b)
    ensures forall b :: InsideEntryOf(InBoxes(edges), b) == InsideEntry(edges, b)
  {
    forall b: Box ensures Open(OnBoxes(edges), InBoxes(edges), b) == Accessible(edges, b)
                  && InsideEntryOf(InBoxes(edges), b) == InsideEntry(edges, b) {
      BoxTally(edges, b);
    }
  }

  /** Entry lists built from filters and entries that agree on every box agree. */
  lemma {:induction false} EntriesAgree(order: seq<Box>, keep: Box -> bool, entry: Box -> string,
                                        keep': Box -> bool, entry': Box -> string)
    requires forall b :: keep(b) == keep'(b) && entry(b) == entry'(b)
    ensures Entries(order, keep, entry) == Entries(order, keep', entry')
  {
    if order != [] {
      EntriesAgree(order[1..], keep, entry, keep', entry');
    }
  }

  /** The first pass over the boxes: accessible or blocked, with an inside entry for each accessible one. */
  method SplitBoxes(order: seq<Box>, onBox: map<Box, seq<string>>, inBox: map<Box, seq<string>>)
    returns (accessible: seq<Box>, blocked: seq<Box>, placements: seq<string>)
    ensures placements == Entries(order, b => Open(onBox, inBox, b), b => InsideEntryOf(inBox, b))
    ensures forall c: Box :: c in accessible <==> c in order && Open(onBox, inBox, c)
    ensures forall c: Box :: c in blocked <==> c in order && !Open(onBox, inBox, c)
  {
    accessible, blocked, placements := [], [], [];
    var k := 0;
    while k < |order|
      invariant 0 <= k <= |order|
      invariant placements == Entries(order[..k], b => Open(onBox, inBox, b), b => InsideEntryOf(inBox, b))
      invariant forall c: Box :: c in accessible <==> c in order[..k] && Open(onBox, inBox, c)
      invariant forall c: Box :: c in blocked <==> c in order[..k] && !Open(onBox, inBox, c)
    {
      var box := order[k];
      assert order[..k + 1] == order[..k] + [box];
      EntriesSnoc(order[..k], b => Open(onBox, inBox, b), b => InsideEntryOf(inBox, b), box);
      accessible, blocked, placements := VisitBox(box, onBox, inBox, accessible, blocked, placements);
      k := k + 1;
    }
    assert order[..|order|] == order;
  }

  /** One box of the first pass: blocked when something is on top or it is full, else accessible with its inside entry. */
  method VisitBox(box: Box, onBox: map<Box, seq<string>>, inBox: map<Box, seq<string>>,
                  accessible: seq<Box>, blocked: seq<Box>, placements: seq<string>)
    returns (accessible': seq<Box>, blocked': seq<Box>, placements': seq<string>)
    ensures accessible' == accessible + (if Open(onBox, inBox, box) then [box] else [])
    ensures blocked' == blocked + (if Open(onBox, inBox, box) then [] else [box])
    ensures placements' == placements + (if Open(onBox, inBox, box) then [InsideEntryOf(inBox, box)] else [])
  {
    accessible', blocked', placements' := accessible, blocked, placements;
    var hasObjectsOnTop := box in onBox && |onBox[box]| > 0;
    if hasObjectsOnTop {
      blocked' := blocked + [box];
    } else {
      var objectsInBox := if box in inBox then inBox[box] else [];
      if |objectsInBox| < 3 {
        accessible' := accessible + [box];
        placements' := placements + [BoxName(box) + "(内部,已有" + NatToString(|objectsInBox|) + "/3)"];
      } else {
        blocked' := blocked + [box];
      }
    }
  }

  /** What the two dictionaries say about one box. */
  lemma BoxTally(edges: seq<Item>, b: Box)
    ensures (b in OnBoxes(edges) && |OnBoxes(edges)[b]| > 0) <==> OnObjects(edges, b) != []
    ensures (if b in InBoxes(edges) then InBoxes(edges)[b] else []) == InObjects(edges, b)
  {
    BoxListed(b);
  }

  /** The second pass of `_analyze_3d_desktop_accessibility`: a surface entry for each box not blocked. */
  method AppendSurfaceEntries(order: seq<Box>, onBox: map<Box, seq<string>>, inBox: map<Box, seq<string>>,
                              blocked: seq<Box>, placements: seq<string>)
    returns (r: seq<string>)
    requires forall c: Box :: c in blocked <==> !Open(onBox, inBox, c)
    ensures r == placements + Entries(order, b => Open(onBox, inBox, b), SurfaceEntry)
  {
    r := placements;
    var k := 0;
    while k < |order|
      invariant 0 <= k <= |order|
      invariant r == placements + Entries(order[..k], b => Open(onBox, inBox, b), SurfaceEntry)
    {
      var box := order[k];
      assert order[..k + 1] == order[..k] + [box];
      EntriesSnoc(order[..k], b => Open(onBox, inBox, b), SurfaceEntry, box);
      if box !in blocked {
        r := r + [BoxName(box) + "(表面)"];
      }
      k := k + 1;
    }
    assert order[..|order|] == order;
  }

  lemma AllBoxesVisited(order: seq<Box>)
    requires IsBoxOrder(order)
    ensures forall c: Box :: c in order
  {
    forall c: Box ensures c in order {
      BoxListed(c);
      assert c in multiset(SortedBoxes);
    }
  }

  /** `sorted()` of a list of boxes, as their names. */
  method SortByName(bs: seq<Box>) returns (s: seq<string>)
    ensures s == Names(InNameOrder(bs))
  {
    s := [];
    var k := |SortedBoxes|;
    while k > 0
      invariant 0 <= k <= |SortedBoxes|
      invariant s == Names(Kept(SortedBoxes[k..], c => c in bs))
    {
      k := k - 1;
      var b := SortedBoxes[k];
      assert SortedBoxes[k..] == [b] + SortedBoxes[k + 1..];
      var rest := Kept(SortedBoxes[k + 1..], c => c in bs);
      if b in bs {
        assert Kept(SortedBoxes[k..], c => c in bs) == [b] + rest;
        NamesCons(b, rest);
        s := [BoxName(b)] + s;
      } else {
        assert Kept(SortedBoxes[k..], c => c in bs) == rest;
      }
    }
  }

  /** Filters that agree on every box agree. */
  lemma {:induction false} KeptAgree(boxes: seq<Box>, keep: Box -> bool, keep': Box -> bool)
    requires forall c :: keep(c) == keep'(c)
    ensures Kept(boxes, keep) == Kept(boxes, keep')
  {
    if boxes != [] {
      KeptAgree(boxes[1..], keep, keep');
    }
  }

  /** Sorting a list holding exactly the boxes of one kind yields the name-ordered filter of that kind. */
  lemma SortedFilter(edges: seq<Item>, wanted: bool, bs: seq<Box>)
    requires forall c: Box :: c in bs <==> Accessible(edges, c) == wanted
    ensures InNameOrder(bs) == BoxesWhere(edges, wanted, SortedBoxes)
  {
    KeptAgree(SortedBoxes, c => c in bs, b => Accessible(edges, b) == wanted);
  }

  lemma {:induction false} EntriesSnoc(order: seq<Box>, keep: Box -> bool, entry: Box -> string, box: Box)
    ensures Entries(order + [box], keep, entry) == Entries(order, keep, entry) + (if keep(box) then [entry(box)] else [])
  {
    if order == [] {
      assert [box][1..] == [];
    } else {
      var head := if keep(order[0]) then [entry(order[0])] else [];
      var last := if keep(box) then [entry(box)] else [];
      assert (order + [box])[1..] == order[1..] + [box];
      EntriesSnoc(order[1..], keep, entry, box);
      assert Entries(order + [box], keep, entry) == head + (Entries(order[1..], keep, entry) + last);
      assert head + (Entries(order[1..], keep, entry) + last) == (head + Entries(order[1..], keep, entry)) + last;
    }
  }

  // ----- properties of the accessibility result -----

  /** Lexicographic order on strings, as Python compares them. */
  predicate StrLess(a: string, b: string)
  {
    exists k :: 0 <= k <= |a| && k <= |b| && a[..k] == b[..k] &&
      ((k == |a| && k < |b|) || (k < |a| && k < |b| && a[k] < b[k]))
  }

  predicate StrictlySorted(s: seq<string>)
  {
    forall i, j :: 0 <= i < j < |s| ==> StrLess(s[i], s[j])
  }

  /** The name order of the boxes: blue before red before yellow. */
  predicate BoxBefore(a: Box, b: Box)
  {
    Rank(a) < Rank(b)
  }

  function Rank(b: Box): nat
  {
    match b
    case BlueBox => 0
    case RedBox => 1
    case YellowBox => 2
  }

  lemma BoxBeforeIsNameOrder(a: Box, b: Box)
    requires BoxBefore(a, b)
    ensures StrLess(BoxName(a), BoxName(b))
  {
    assert BoxName(a)[..0] == BoxName(b)[..0];
    assert BoxName(a)[0] < BoxName(b)[0];
  }

  /** A filter of the name-ordered boxes keeps their order. */
  lemma {:induction false} FilterKeepsOrder(boxes: seq<Box>, keep: Box -> bool)
    requires forall i, j :: 0 <= i < j < |boxes| ==> BoxBefore(boxes[i], boxes[j])
    ensures forall i, j :: 0 <= i < j < |Kept(boxes, keep)| ==> BoxBefore(Kept(boxes, keep)[i], Kept(boxes, keep)[j])
  {
    if boxes != [] {
      var tail := boxes[1..];
      assert forall i, j :: 0 <= i < j < |tail| ==> BoxBefore(tail[i], tail[j]) by {
        forall i, j | 0 <= i < j < |tail| ensures BoxBefore(tail[i], tail[j]) {
          assert tail[i] == boxes[i + 1] && tail[j] == boxes[j + 1];
        }
      }
      FilterKeepsOrder(tail, keep);
      var rest := Kept(tail, keep);
      var r := Kept(boxes, keep);
      if keep(boxes[0]) {
        assert forall x :: x in tail ==> BoxBefore(boxes[0], x) by {
          forall x | x in tail ensures BoxBefore(boxes[0], x) {
            var m :| 0 <= m < |tail| && tail[m] == x;
            assert boxes[m + 1] == x;
          }
        }
        assert r == [boxes[0]] + rest;
        forall i, j | 0 <= i < j < |r| ensures BoxBefore(r[i], r[j]) {
          if i == 0 {
            assert r[j] == rest[j - 1] && rest[j - 1] in tail;
          } else {
            assert r[i] == rest[i - 1] && r[j] == rest[j - 1];
          }
        }
      }
    }
  }

  lemma NamesSorted(bs: seq<Box>)
    requires forall i, j :: 0 <= i < j < |bs| ==> BoxBefore(bs[i], bs[j])
    ensures StrictlySorted(Names(bs))
  {
    forall i, j | 0 <= i < j < |bs| ensures StrLess(Names(bs)[i], Names(bs)[j]) {
      BoxBeforeIsNameOrder(bs[i], bs[j]);
    }
  }

  lemma NamesInjective(bs: seq<Box>, b: Box)
    ensures BoxName(b) in Names(bs) <==> b in bs
  {
    if BoxName(b) in Names(bs) {
      var i :| 0 <= i < |bs| && Names(bs)[i] == BoxName(b);
      BoxNamedOfName(b);
      BoxNamedOfName(bs[i]);
    }
    if b in bs {
      var i :| 0 <= i < |bs| && bs[i] == b;
      assert Names(bs)[i] == BoxName(b);
    }
  }

  /** A box is kept by a filter exactly when it is among the boxes and the filter holds for it. */
  lemma {:induction false} KeptMember(boxes: seq<Box>, keep: Box -> bool, b: Box)
    ensures b in Kept(boxes, keep) <==> b in boxes && keep(b)
  {
    if boxes != [] {
      KeptMember(boxes[1..], keep, b);
      assert boxes == [boxes[0]] + boxes[1..];
    }
  }

  /** Both box lists of the result are in name order. */
  lemma AccessibilitySorted(edges: seq<Item>, order: seq<Box>)
    ensures StrictlySorted(AccessibilityOf(edges, order).accessible)
    ensures StrictlySorted(AccessibilityOf(edges, order).blocked)
  {
    FilterKeepsOrder(SortedBoxes, b => Accessible(edges, b) == true);
    FilterKeepsOrder(SortedBoxes, b => Accessible(edges, b) == false);
    NamesSorted(BoxesWhere(edges, true, SortedBoxes));
    NamesSorted(BoxesWhere(edges, false, SortedBoxes));
  }

  /**
   * Every box is in exactly one of the accessible and blocked lists; a box
   * with anything on it is blocked, and a clear box is accessible exactly
   * when it holds fewer than three things.
   */
  lemma AccessibilityPartition(edges: seq<Item>, order: seq<Box>, b: Box)
    ensures BoxName(b) in AccessibilityOf(edges, order).accessible <==> Accessible(edges, b)
    ensures BoxName(b) in AccessibilityOf(edges, order).blocked <==> !Accessible(edges, b)
    ensures OnObjects(edges, b) != [] ==> BoxName(b) in AccessibilityOf(edges, order).blocked
    ensures OnObjects(edges, b) == [] ==> (BoxName(b) in AccessibilityOf(edges, order).accessible <==> |InObjects(edges, b)| < 3)
  {
    var acc := BoxesWhere(edges, true, SortedBoxes);
    var blk := BoxesWhere(edges, false, SortedBoxes);
    BoxListed(b);
    KeptMember(SortedBoxes, b => Accessible(edges, b) == true, b);
    KeptMember(SortedBoxes, b => Accessible(edges, b) == false, b);
    NamesInjective(acc, b);
    NamesInjective(blk, b);
  }

  /** Two entry lists over the same filter are equally long. */
  lemma {:induction false} EntriesSameLength(order: seq<Box>, keep: Box -> bool, entry: Box -> string, entry': Box -> string)
    ensures |Entries(order, keep, entry)| == |Entries(order, keep, entry')|
  {
    if order != [] {
      EntriesSameLength(order[1..], keep, entry, entry');
    }
  }

  /** The placement list is the table, then an inside and a surface entry for each accessible box. */
  lemma PlacementCount(edges: seq<Item>, order: seq<Box>)
    ensures |InsideEntries(edges, order)| == |SurfaceEntries(edges, order)|
    ensures |AccessibilityOf(edges, order).placements| == 1 + 2 * |InsideEntries(edges, order)|
  {
    EntriesSameLength(order, b => Accessible(edges, b), b => InsideEntry(edges, b), SurfaceEntry);
  }

  // ----- the summaries -----

  /** The string edges, in order. */
  function StringEdges(edges: seq<Item>): (r: seq<string>)
    ensures |r| <= |edges|
  {
    if edges == [] then []
    else (if edges[0].Str? then [edges[0].text] else []) + StringEdges(edges[1..])
  }

  /** The legacy listing: object edges as "from->to", string edges with '>' written "->". */
  function LegacyEdgeList(edges: seq<Item>): (r: seq<string>)
    ensures |r| <= |edges|
  {
    if edges == [] then []
    else
      var e := edges[0];
      (match e
       case Dict(f, _) => [FieldOr(f, "from", "N/A") + "->" + FieldOr(f, "to", "N/A")]
       case Str(t) => [ReplaceAll(t, ">", "->")]
       case Int(_) => []) + LegacyEdgeList(edges[1..])
  }

  /** The legacy node listing: an object's "id" (or "N/A"), any other entry's text. */
  function LegacyNodeIds(nodes: seq<Item>): (r: seq<string>)
    ensures |r| == |nodes|
  {
    if nodes == [] then []
    else [if nodes[0].Dict? then FieldOr(nodes[0].fields, "id", "N/A") else Render(nodes[0])] + LegacyNodeIds(nodes[1..])
  }

  function RenderAll(nodes: seq<Item>): (r: seq<string>)
    ensures |r| == |nodes|
    ensures forall i :: 0 <= i < |nodes| ==> r[i] == Render(nodes[i])
  {
    if nodes == [] then [] else [Render(nodes[0])] + RenderAll(nodes[1..])
  }

  datatype Summary = Summary(nodeCount: nat, nodeIds: seq<string>, edgeList: seq<string>, accessibility: AccessResult)

  /** The analysis: the desktop summary, or the legacy path, which fails on its undefined accessibility helper. */
  datatype Analysis = DesktopSummary(summary: Summary) | LegacyFailure

  function AnalyzeSceneGraph(nodes: seq<Item>, edges: seq<Item>, order: seq<Box>): (r: Analysis)
    ensures r.DesktopSummary? <==> IsDesktopFormat(nodes, edges)
    ensures r.DesktopSummary? ==> r.summary.nodeCount == |nodes| && |r.summary.nodeIds| == |nodes| &&
                                  r.summary.edgeList == StringEdges(edges)
  {
    if IsDesktopFormat(nodes, edges) then
      DesktopSummary(Summary(|nodes|, RenderAll(nodes), StringEdges(edges), AccessibilityOf(edges, order)))
    else LegacyFailure
  }

  /** What the tool returns: the raw text itself, or the failure that escapes it. */
  datatype ToolOutcome = Returned(text: string) | Failed

  /**
   * `execute`: the text is returned as it came whenever it is unavailable, does
   * not decode, or decodes to a desktop scene; a legacy scene makes it fail.
   */
  function SceneToolExecute(raw: string, decoded: Option<(seq<Item>, seq<Item>)>, order: seq<Box>): (r: ToolOutcome)
    ensures r.Returned? ==> r.text == raw
  {
    if Contains(raw, "Scene graph is not available") then Returned(raw)
    else
      match decoded
      case None => Returned(raw)
      case Some((nodes, edges)) =>
        if AnalyzeSceneGraph(nodes, edges, order).LegacyFailure? then Failed else Returned(raw)
  }

  /** The tool fails exactly on a decodable legacy scene. */
  lemma SceneToolFailsOnlyOnLegacy(raw: string, decoded: Option<(seq<Item>, seq<Item>)>, order: seq<Box>)
    ensures SceneToolExecute(raw, decoded, order).Failed? <==>
            !Contains(raw, "Scene graph is not available") && decoded.Some? &&
            !IsDesktopFormat(decoded.value.0, decoded.value.1)
  {
  }

  /** A string edge without '>' is listed unchanged by the legacy listing. */
  lemma LegacyKeepsPlainEdges(edges: seq<Item>)
    requires forall i :: 0 <= i < |edges| ==> edges[i].Str? && '>' !in edges[i].text
    ensures LegacyEdgeList(edges) == StringEdges(edges)
  {
    if edges != [] {
      ContainsNeedsChar(edges[0].text, ">", '>');
      LegacyKeepsPlainEdges(edges[1..]);
    }
  }
}
