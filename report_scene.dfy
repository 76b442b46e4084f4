// How the benchmark judges read a final scene graph
// (report_analysis/Auto_extract_report_data_batch.py): every judge matches
// edges against `([\w_]+)\((in|on)\)([\w\/]+)` and tracks the cubes and
// mugs named by the nodes, each at the location of the last edge naming it.
module ReportScene {
  import opened Text
  import opened SceneAnalysis

  // ----- what a judge returns -----

  /** A progress figure: a Python int, or a float with one decimal, kept in tenths. */
  datatype Score = Whole(n: nat) | Tenths(t: nat)

  /** The `progress_info` dict: correct, total and the optional `progress_detail` string. */
  datatype Progress = Progress(correct: Score, total: nat, detail: Option<string>)

  /** The progress claims no more than its total; a score in tenths counts ten per unit. */
  predicate WithinTotal(p: Progress)
  {
    match p.correct
    case Whole(c) => c <= p.total
    case Tenths(t) => t <= 10 * p.total
  }

  /** Why a judge failed: its error message, as a constructor. */
  datatype Failure =
    | NoGoal
    | TargetUnclear
    | JudgeCrashed
    | LayersShort(score: nat)
    | NoItemsNamed
    | TooFewDrawers(found: nat)
    | UnrelatedInDrawers(items: seq<string>)
    | AllInOneDrawer(required: nat)
    | DrawersIncomplete(tenths: nat, required: nat, placed: nat, shared: nat, used: nat, unplaced: seq<string>)
    | BoxesIncomplete(correct: nat, total: nat)
    | ColoursIncomplete(detail: string)
    | TargetIncomplete(correct: nat, total: nat)

  /** `(is_successful, progress_info, error_message)`; the error message is empty exactly on success. */
  datatype Judgement = Judgement(success: bool, progress: Progress, failure: Option<Failure>)

  predicate Consistent(j: Judgement) { j.success <==> j.failure.None? }

  /** `[\w\/]`. */
  predicate IsPathChar(c: char) { IsWordChar(c) || c == '/' }

  /** `"drawer" in location`: a location inside some drawer layer. */
  predicate InDrawer(loc: string) { Contains(loc, "drawer") }

  /** `in`/`on` between parentheses. */
  predicate IsRelation(r: string) { r == "(in)" || r == "(on)" }

  /**
   * `re.match(r'([\w_]+)\((in|on)\)([\w\/]+)', edge)`: the item and the
   * location. Both runs are greedy and nothing else can follow the first, so
   * the match is the longest word run, a relation, and the longest path run.
   */
  function EdgeMatch(edge: string): (r: Option<(string, string)>)
    ensures r.Some? ==> r.value.0 != [] && AllChars(r.value.0, IsWordChar)
    ensures r.Some? ==> r.value.1 != [] && AllChars(r.value.1, IsPathChar)
    ensures r.Some? ==> StartsWith(edge, r.value.0) && |r.value.0| + 4 <= |edge| && IsRelation(edge[|r.value.0|..|r.value.0| + 4])
  {
    var n := Run(edge, IsWordChar);
    var rest := edge[n..];
    if n > 0 && |rest| >= 4 && IsRelation(rest[..4]) then
      var loc := rest[4..];
      var m := Run(loc, IsPathChar);
      assert rest[..4] == edge[n..n + 4];
      if m > 0 then Some((edge[..n], loc[..m])) else None
    else None
  }

  /** An edge written as item, relation, location (and anything not continuing the location) matches as such. */
  lemma EdgeMatchOf(item: string, rel: string, loc: string, tail: string)
    requires item != [] && AllChars(item, IsWordChar)
    requires IsRelation(rel)
    requires loc != [] && AllChars(loc, IsPathChar)
    requires tail == [] || !IsPathChar(tail[0])
    ensures EdgeMatch(item + (rel + (loc + tail))) == Some((item, loc))
  {
    var edge := item + (rel + (loc + tail));
    assert !IsWordChar(rel[0]);
    RunOfConcat(item, rel + (loc + tail), IsWordChar);
    assert edge[|item|..] == rel + (loc + tail);
    assert (rel + (loc + tail))[..4] == rel;
    assert (rel + (loc + tail))[4..] == loc + tail;
    RunOfConcat(loc, tail, IsPathChar);
    assert (loc + tail)[..|loc|] == loc;
    assert edge[..|item|] == item;
  }

  // ----- the tracked cubes and mugs -----

  /** `"_cube" in node`: the node is tracked as a cube. */
  predicate IsCubeName(n: string) { Contains(n, "_cube") }

  /** `"mug" in node` for a node that is not a cube: tracked as a mug. */
  predicate IsMugName(n: string) { !IsCubeName(n) && Contains(n, "mug") }

  /** The keys a dict gets from `d[node] = None` over the nodes satisfying `p`: first occurrences, in order. */
  function Keys(nodes: seq<string>, p: string -> bool): (ks: seq<string>)
    ensures forall k :: k in ks <==> k in nodes && p(k)
    ensures forall i, j :: 0 <= i < j < |ks| ==> ks[i] != ks[j]
  {
    if nodes == [] then []
    else
      var ks := Keys(nodes[..|nodes| - 1], p);
      var n := nodes[|nodes| - 1];
      assert forall k :: k in nodes <==> k in nodes[..|nodes| - 1] || k == n;
      if p(n) && n !in ks then ks + [n] else ks
  }

  /** The location of the last matching edge whose item is `name`, if any. */
  function LastLocation(edges: seq<string>, name: string): Option<string>
  {
    if edges == [] then None
    else
      var m := EdgeMatch(edges[|edges| - 1]);
      if m.Some? && m.value.0 == name then Some(m.value.1)
      else LastLocation(edges[..|edges| - 1], name)
  }

  /** A location found for `name` comes from an edge naming `name`. */
  lemma {:induction false} LocationFromEdge(edges: seq<string>, name: string)
    ensures LastLocation(edges, name).Some? ==>
              exists i :: 0 <= i < |edges| && EdgeMatch(edges[i]) == Some((name, LastLocation(edges, name).value))
  {
    if edges != [] {
      var init := edges[..|edges| - 1];
      LocationFromEdge(init, name);
      assert forall i :: 0 <= i < |init| ==> init[i] == edges[i];
    }
  }

  /** No edge naming `name` leaves it without a location. */
  lemma {:induction false} NoEdgeNoLocation(edges: seq<string>, name: string)
    requires forall i :: 0 <= i < |edges| ==> EdgeMatch(edges[i]).None? || EdgeMatch(edges[i]).value.0 != name
    ensures LastLocation(edges, name).None?
  {
    if edges != [] {
      var init := edges[..|edges| - 1];
      assert forall i :: 0 <= i < |init| ==> init[i] == edges[i];
      NoEdgeNoLocation(init, name);
    }
  }

  /** An edge naming `name` after every other such edge decides its location. */
  lemma {:induction false} LastEdgeWins(edges: seq<string>, name: string, i: nat)
    requires i < |edges| && EdgeMatch(edges[i]).Some? && EdgeMatch(edges[i]).value.0 == name
    requires forall j :: i < j < |edges| ==> EdgeMatch(edges[j]).None? || EdgeMatch(edges[j]).value.0 != name
    ensures LastLocation(edges, name) == Some(EdgeMatch(edges[i]).value.1)
  {
    if i < |edges| - 1 {
      var init := edges[..|edges| - 1];
      assert forall j :: i < j < |init| ==> init[j] == edges[j];
      LastEdgeWins(init, name, i);
    }
  }

  /** `{**cubes, **mugs}`: the cube keys, then the mug keys. */
  function Objects(g: Graph): (objs: seq<string>)
    ensures forall o :: o in objs <==> o in g.nodes && (IsCubeName(o) || IsMugName(o))
    ensures forall i, j :: 0 <= i < j < |objs| ==> objs[i] != objs[j]
  {
    var cubes, mugs := Keys(g.nodes, IsCubeName), Keys(g.nodes, IsMugName);
    assert forall i, j :: 0 <= i < |cubes| && 0 <= j < |mugs| ==> cubes[i] != mugs[j] by {
      forall i, j | 0 <= i < |cubes| && 0 <= j < |mugs| ensures cubes[i] != mugs[j] {
        assert cubes[i] in cubes && mugs[j] in mugs;
      }
    }
    cubes + mugs
  }

  /** `set(cubes.keys()) | set(mugs.keys())`: the items allowed in a drawer. */
  function Allowed(g: Graph): (s: set<string>)
    ensures forall o :: o in s <==> o in Objects(g)
  {
    set o | o in Objects(g)
  }

  /** Where the judges find an object: its last edge, or nothing. */
  function Location(g: Graph, name: string): Option<string>
  {
    LastLocation(g.edges, name)
  }

  /** How many of `objs` are located at `place`, as the judges' counting loops find. */
  function PlacedAt(g: Graph, objs: seq<string>, place: string): (n: nat)
    ensures n <= |objs|
  {
    if objs == [] then 0
    else PlacedAt(g, objs[..|objs| - 1], place) + (if Location(g, objs[|objs| - 1]) == Some(place) then 1 else 0)
  }

  /** The judges' counting loop over the location dict: how many of `objs` are at `place`. */
  method CountPlacedAt(g: Graph, objs: seq<string>, loc: map<string, Option<string>>, place: string) returns (n: nat)
    requires forall o :: o in objs ==> o in loc && loc[o] == Location(g, o)
    ensures n == PlacedAt(g, objs, place)
  {
    n := 0;
    var i := 0;
    while i < |objs|
      invariant 0 <= i <= |objs|
      invariant n == PlacedAt(g, objs[..i], place)
    {
      assert objs[..i + 1][..i] == objs[..i];
      if loc[objs[i]] == Some(place) {
        n := n + 1;
      }
      i := i + 1;
    }
    assert objs[..|objs|] == objs;
  }

  /** The node loop and the edge loop that fill the `cubes` and `mugs` dicts. */
  method TrackObjects(g: Graph) returns (cubes: seq<string>, mugs: seq<string>, loc: map<string, Option<string>>)
    ensures cubes == Keys(g.nodes, IsCubeName) && mugs == Keys(g.nodes, IsMugName)
    ensures cubes + mugs == Objects(g)
    ensures forall o :: o in loc <==> o in cubes || o in mugs
    ensures forall o :: o in loc ==> loc[o] == Location(g, o)
  {
    var unset;
    cubes, mugs, unset := TrackNodes(g.nodes);
    loc := LocateObjects(g.edges, unset);
  }

  /** `cubes[node] = None` / `mugs[node] = None` over the nodes. */
  method TrackNodes(nodes: seq<string>) returns (cubes: seq<string>, mugs: seq<string>, loc: map<string, Option<string>>)
    ensures cubes == Keys(nodes, IsCubeName) && mugs == Keys(nodes, IsMugName)
    ensures forall o :: o in loc <==> o in cubes || o in mugs
  {
    cubes, mugs := [], [];
    loc := map[];
    var i := 0;
    while i < |nodes|
      invariant 0 <= i <= |nodes|
      invariant cubes == Keys(nodes[..i], IsCubeName) && mugs == Keys(nodes[..i], IsMugName)
      invariant forall o :: o in loc <==> o in cubes || o in mugs
    {
      var node := nodes[i];
      assert nodes[..i + 1][..i] == nodes[..i];
      if Contains(node, "_cube") {
        if node !in cubes {
          cubes := cubes + [node];
        }
        loc := loc[node := None];
      } else if Contains(node, "mug") {
        if node !in mugs {
          mugs := mugs + [node];
        }
        loc := loc[node := None];
      }
      i := i + 1;
    }
    assert nodes[..|nodes|] == nodes;
  }

  /** The edge loop: each tracked object moves to the location of every edge naming it. */
  method LocateObjects(edges: seq<string>, unset: map<string, Option<string>>) returns (loc: map<string, Option<string>>)
    ensures loc.Keys == unset.Keys
    ensures forall o :: o in loc ==> loc[o] == LastLocation(edges, o)
  {
    loc := map o | o in unset :: None;
    var j := 0;
    while j < |edges|
      invariant 0 <= j <= |edges|
      invariant loc.Keys == unset.Keys
      invariant forall o :: o in loc ==> loc[o] == LastLocation(edges[..j], o)
    {
      var e := edges[j];
      assert edges[..j + 1][..j] == edges[..j];
      var m := EdgeMatch(e);
      if m.Some? && m.value.0 in loc {
        loc := loc[m.value.0 := Some(m.value.1)];
      }
      j := j + 1;
    }
    assert edges[..|edges|] == edges;
  }
}
