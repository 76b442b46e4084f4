// The scene graph as the action validator reads it: string nodes (some
// carrying an "(open)"/"(closed)" suffix) and string edges of the forms
// "A(on)B", "A(in)B" and "0=T|F" (the table status).
module SceneAnalysis {
  import opened Text

  datatype Graph = Graph(nodes: seq<string>, edges: seq<string>)

  datatype State = Opened | Closed

  /** Why a check refused an action. */
  datatype Rejection =
    | Unparseable
    | ToggleTargetMissing(name: string)
    | NoToggleState(name: string)
    | AlreadyOpen(name: string)
    | AlreadyClosed(name: string)
    | SourceMissing(name: string)
    | TargetMissing(name: string)
    | CubeLocationUnknown(cube: string)
    | CubeContainerBlocked(container: string, blockers: seq<string>)
    | BlockedFromAbove(name: string, blocker: string)
    | ContainerClosed(container: string)
    | DrawerNotOpen(drawer: string)
    | DrawerCovered(drawer: string, blocker: string)
    | ContainerBlocked(container: string, blocker: string)
    | ContainerIntoContainer(source: string, target: string)
    | TargetIsCube(target: string)
    | TargetIsMug(target: string)
    | TargetBlocked(target: string, blockers: seq<string>)
    | TargetClosed(target: string)
    | BoxFull(target: string, cubes: nat)
    | TableFull
    | AlreadyDone(source: string, target: string)

  datatype Check = Pass | Fail(reason: Rejection)

  const LowDrawer := "short_cabinet/drawer_low"
  const MiddleDrawer := "short_cabinet/drawer_middle"
  const HighDrawer := "short_cabinet/drawer_high"

  // ----- edge syntax -----

  /** A name with every "(open)" and "(closed)" removed. */
  function CleanState(s: string): string
  {
    ReplaceAll(ReplaceAll(s, "(open)", ""), "(closed)", "")
  }

  /** The two stripped halves of an edge that `sep` splits into exactly two parts. */
  function Halves(edge: string, sep: string): (r: Option<(string, string)>)
    requires sep != []
    ensures r.Some? ==> Contains(edge, sep)
  {
    var parts := Split(edge, sep);
    if |parts| == 2 then Some((Strip(parts[0]), Strip(parts[1]))) else None
  }

  /** The halves the first analysis pass uses: split on "(on)" if present, else on "(in)". */
  function RelationHalves(edge: string): Option<(string, string)>
  {
    if Contains(edge, "(on)") then Halves(edge, "(on)")
    else if Contains(edge, "(in)") then Halves(edge, "(in)")
    else None
  }

  /** Names other than "table" that one edge mentions. */
  function EdgeNames(edge: string): set<string>
  {
    match RelationHalves(edge)
    case None => {}
    case Some((a, b)) => {CleanState(a), CleanState(b)} - {"table"}
  }

  function NodeNames(node: string): set<string>
  {
    var c := CleanState(node);
    if c != [] && c != "table" then {c} else {}
  }

  function EdgeObjects(edges: seq<string>): set<string>
  {
    if edges == [] then {} else EdgeObjects(edges[..|edges| - 1]) + EdgeNames(edges[|edges| - 1])
  }

  function NodeObjects(nodes: seq<string>): set<string>
  {
    if nodes == [] then {} else NodeObjects(nodes[..|nodes| - 1]) + NodeNames(nodes[|nodes| - 1])
  }

  /** An edge carrying the table status, "0=X"; its status is the text up to the next "=". */
  predicate IsStatusEdge(edge: string)
  {
    Contains(edge, "=") && StartsWith(edge, "0=")
  }

  function StatusOf(edge: string): string
    requires IsStatusEdge(edge)
  {
    var parts := Split(edge, "=");
    assert |parts| != 1;
    parts[1]
  }

  /** The "(on)" halves of an edge the second analysis pass looks at (one without "="). */
  function StackHalves(edge: string): Option<(string, string)>
  {
    if Contains(edge, "=") then None else Halves(edge, "(on)")
  }

  function OnTable(edges: seq<string>): set<string>
  {
    if edges == [] then {}
    else
      OnTable(edges[..|edges| - 1]) +
      match StackHalves(edges[|edges| - 1])
      case Some((a, b)) => if CleanState(b) == "table" then {CleanState(a)} else {}
      case None => {}
  }

  function Blocked(edges: seq<string>): set<string>
  {
    if edges == [] then {}
    else
      Blocked(edges[..|edges| - 1]) +
      match StackHalves(edges[|edges| - 1])
      case Some((_, b)) => if CleanState(b) == "table" then {} else {CleanState(b)}
      case None => {}
  }

  function TableStatus(edges: seq<string>): string
  {
    if edges == [] then "T"
    else if IsStatusEdge(edges[|edges| - 1]) then StatusOf(edges[|edges| - 1])
    else TableStatus(edges[..|edges| - 1])
  }

  datatype Analysis = Analysis(
    allObjects: set<string>,
    movable: set<string>,
    blocked: set<string>,
    tableStatus: string,
    stackCount: nat,
    objectsOnTable: set<string>)

  /** What the scene analysis derives from a graph. */
  function Analyze(g: Graph): Analysis
  {
    var all := EdgeObjects(g.edges) + NodeObjects(g.nodes);
    var onTable := OnTable(g.edges);
    Analysis(all, all - Blocked(g.edges), Blocked(g.edges), TableStatus(g.edges), |onTable|, onTable)
  }

  lemma EdgePassStep(edges: seq<string>, i: nat)
    requires i < |edges|
    ensures EdgeObjects(edges[..i + 1]) == EdgeObjects(edges[..i]) + EdgeNames(edges[i])
    ensures OnTable(edges[..i + 1]) == OnTable(edges[..i]) +
      match StackHalves(edges[i])
      case Some((a, b)) => if CleanState(b) == "table" then {CleanState(a)} else {}
      case None => {}
    ensures Blocked(edges[..i + 1]) == Blocked(edges[..i]) +
      match StackHalves(edges[i])
      case Some((_, b)) => if CleanState(b) == "table" then {} else {CleanState(b)}
      case None => {}
    ensures TableStatus(edges[..i + 1]) ==
      if IsStatusEdge(edges[i]) then StatusOf(edges[i]) else TableStatus(edges[..i])
  {
    assert edges[..i + 1][..i] == edges[..i];
  }

  lemma NodePassStep(nodes: seq<string>, i: nat)
    requires i < |nodes|
    ensures NodeObjects(nodes[..i + 1]) == NodeObjects(nodes[..i]) + NodeNames(nodes[i])
  {
    assert nodes[..i + 1][..i] == nodes[..i];
  }

  /** The names the first pass collects from one edge, as its loop body computes them. */
  method CollectEdgeNames(e: string) returns (names: set<string>)
    ensures names == EdgeNames(e)
  {
    names := {};
    if Contains(e, "(on)") || Contains(e, "(in)") {
      var sep := if Contains(e, "(on)") then "(on)" else "(in)";
      var parts := Split(e, sep);
      if |parts| == 2 {
        var objectName := CleanState(Strip(parts[0]));
        var targetName := CleanState(Strip(parts[1]));
        if objectName != "table" { names := names + {objectName}; }
        if targetName != "table" { names := names + {targetName}; }
      }
    }
  }

  /** The second pass over the edges: table status, objects on the table, and blocked objects. */
  method StackPass(edges: seq<string>, all: set<string>)
    returns (movable: set<string>, blocked: set<string>, status: string, onTable: set<string>)
    ensures blocked == Blocked(edges) && movable == all - blocked
    ensures status == TableStatus(edges) && onTable == OnTable(edges)
  {
    movable := all;
    blocked := {};
    status := "T";
    onTable := {};
    for i := 0 to |edges|
      invariant blocked == Blocked(edges[..i])
      invariant movable == all - blocked
      invariant onTable == OnTable(edges[..i])
      invariant status == TableStatus(edges[..i])
    {
      var e := edges[i];
      EdgePassStep(edges, i);
      if Contains(e, "=") {
        assert StackHalves(e).None?;
        if StartsWith(e, "0=") {
          status := Split(e, "=")[1];
        }
      } else if Contains(e, "(on)") {
        assert !IsStatusEdge(e);
        var parts := Split(e, "(on)");
        if |parts| == 2 {
          var above := CleanState(Strip(parts[0]));
          var target := CleanState(Strip(parts[1]));
          assert StackHalves(e) == Some((Strip(parts[0]), Strip(parts[1])));
          if target == "table" {
            onTable := onTable + {above};
          } else {
            blocked := blocked + {target};
            movable := movable - {target};
          }
        }
      }
    }
    assert edges[..|edges|] == edges;
  }

  /** The scene analysis, as the two passes over the edges and one over the nodes compute it. */
  method AnalyzeSceneGraph(g: Graph) returns (a: Analysis)
    ensures a == Analyze(g)
  {
    var all: set<string> := {};
    for i := 0 to |g.edges|
      invariant all == EdgeObjects(g.edges[..i])
    {
      EdgePassStep(g.edges, i);
      var names := CollectEdgeNames(g.edges[i]);
      all := all + names;
    }
    assert g.edges[..|g.edges|] == g.edges;
    var fromEdges := all;
    for i := 0 to |g.nodes|
      invariant all == fromEdges + NodeObjects(g.nodes[..i])
    {
      NodePassStep(g.nodes, i);
      var clean := CleanState(g.nodes[i]);
      if clean != [] && clean != "table" {
        all := all + {clean};
      }
    }
    assert g.nodes[..|g.nodes|] == g.nodes;
    var movable, blocked, status, onTable := StackPass(g.edges, all);
    a := Analysis(all, movable, blocked, status, |onTable|, onTable);
  }

  // ----- what the analysis promises -----

  lemma {:induction false} TableNotInEdgeObjects(edges: seq<string>)
    ensures "table" !in EdgeObjects(edges)
  {
    if edges != [] { TableNotInEdgeObjects(edges[..|edges| - 1]); }
  }

  lemma {:induction false} TableNotInNodeObjects(nodes: seq<string>)
    ensures "table" !in NodeObjects(nodes)
  {
    if nodes != [] { TableNotInNodeObjects(nodes[..|nodes| - 1]); }
  }

  /** "table" is never an object of the scene, so it can never be a move's source. */
  lemma TableIsNeverAnObject(g: Graph)
    ensures "table" !in Analyze(g).allObjects
  {
    TableNotInEdgeObjects(g.edges);
    TableNotInNodeObjects(g.nodes);
  }

  lemma {:induction false} BlockedAreEdgeObjects(edges: seq<string>)
    ensures Blocked(edges) <= EdgeObjects(edges)
  {
    if edges != [] {
      var e := edges[|edges| - 1];
      BlockedAreEdgeObjects(edges[..|edges| - 1]);
      if StackHalves(e).Some? {
        assert Contains(e, "(on)");
        assert RelationHalves(e) == Halves(e, "(on)");
      }
    }
  }

  /** Every blocked object is an object of the scene, and the movable ones are exactly the others. */
  lemma MovablePartition(g: Graph)
    ensures Analyze(g).blocked <= Analyze(g).allObjects
    ensures Analyze(g).movable == Analyze(g).allObjects - Analyze(g).blocked
    ensures Analyze(g).movable * Analyze(g).blocked == {}
  {
    BlockedAreEdgeObjects(g.edges);
  }

  /** An object is blocked exactly when some "(on)" edge without "=" names it, cleaned, as its target. */
  lemma {:induction false} BlockedExactly(edges: seq<string>, x: string)
    ensures x in Blocked(edges) <==>
      exists i, a, b :: 0 <= i < |edges| && StackHalves(edges[i]) == Some((a, b))
                        && CleanState(b) == x && x != "table"
  {
    if edges != [] {
      var init := edges[..|edges| - 1];
      BlockedExactly(init, x);
      var e := edges[|edges| - 1];
      if x in Blocked(edges) && x !in Blocked(init) {
        var (a, b) := StackHalves(e).value;
        assert StackHalves(edges[|edges| - 1]) == Some((a, b));
      }
      if x !in Blocked(edges) {
        forall i, a, b | 0 <= i < |edges| && StackHalves(edges[i]) == Some((a, b)) && CleanState(b) == x
          ensures x == "table"
        {
          if i < |edges| - 1 {
            assert init[i] == edges[i];
          }
        }
      }
      forall i | 0 <= i < |init| ensures init[i] == edges[i] { }
    }
  }

  /** Without any "0=" edge the table status is "T"; otherwise it is the last such edge's status. */
  lemma {:induction false} TableStatusFromLastStatusEdge(edges: seq<string>)
    ensures (forall i :: 0 <= i < |edges| ==> !IsStatusEdge(edges[i])) ==> TableStatus(edges) == "T"
    ensures forall i :: 0 <= i < |edges| && IsStatusEdge(edges[i])
                        && (forall j :: i < j < |edges| ==> !IsStatusEdge(edges[j]))
                        ==> TableStatus(edges) == StatusOf(edges[i])
  {
    if edges != [] {
      var init := edges[..|edges| - 1];
      TableStatusFromLastStatusEdge(init);
      assert forall i :: 0 <= i < |init| ==> init[i] == edges[i];
    }
  }

  // ----- object kinds -----

  predicate IsCube(name: string) { EndsWith(name, "_cube") || Contains(Lower(name), "cube") }
  predicate IsMug(name: string) { EndsWith(name, "_mug") || Contains(Lower(name), "mug") }

  predicate IsContainer(name: string)
  {
    var l := Lower(name);
    Contains(l, "drawer") || Contains(l, "lid_box") || EndsWith(l, "_box")
  }

  /** Only non-cube, non-mug names can receive objects. */
  function TargetKindCheck(target: string): (c: Check)
    ensures c.Pass? <==> !IsCube(target) && !IsMug(target)
  {
    if IsCube(target) then Fail(TargetIsCube(target))
    else if IsMug(target) then Fail(TargetIsMug(target))
    else Pass
  }

  // ----- open/closed state -----

  /** The first node that starts with "NAME(" and says "(open)" or "(closed)". */
  function NodeState(nodes: seq<string>, name: string): Option<State>
  {
    if nodes == [] then None
    else if StartsWith(nodes[0], name + "(") && Contains(nodes[0], "(open)") then Some(Opened)
    else if StartsWith(nodes[0], name + "(") && Contains(nodes[0], "(closed)") then Some(Closed)
    else NodeState(nodes[1..], name)
  }

  /** The first edge that mentions NAME together with "NAME(open)" or "NAME(closed)". */
  function EdgeState(edges: seq<string>, name: string): Option<State>
  {
    if edges == [] then None
    else if Contains(edges[0], name) && Contains(edges[0], name + "(open)") then Some(Opened)
    else if Contains(edges[0], name) && Contains(edges[0], name + "(closed)") then Some(Closed)
    else EdgeState(edges[1..], name)
  }

  /** An object's state: from the nodes when they carry one, else from the edges. */
  function ObjectState(g: Graph, name: string): Option<State>
  {
    if NodeState(g.nodes, name).Some? then NodeState(g.nodes, name) else EdgeState(g.edges, name)
  }

  /** A node "NAME(open)" settles the state unless an earlier node says otherwise. */
  lemma {:induction false} NodeStateFirstWins(nodes: seq<string>, name: string, i: nat)
    requires i < |nodes| && nodes[i] == name + "(open)"
    requires forall j :: 0 <= j < i ==> !StartsWith(nodes[j], name + "(")
    ensures NodeState(nodes, name) == Some(Opened)
    decreases i
  {
    OccursInConcat(name, "(open)", []);
    assert name + "(open)" + [] == nodes[i];
    assert StartsWith(nodes[i], name + "(") by {
      assert nodes[i] == (name + "(") + "open)";
    }
    if i > 0 {
      NodeStateFirstWins(nodes[1..], name, i - 1);
    }
  }

  /**
   * The drawer rule: a drawer must be open, the low drawer also needs the
   * middle and high drawers not open, the middle one the high one not open.
   */
  function DrawerCheck(g: Graph, drawer: string): (c: Check)
  {
    if ObjectState(g, drawer) != Some(Opened) then Fail(DrawerNotOpen(drawer))
    else if drawer == LowDrawer && ObjectState(g, MiddleDrawer) == Some(Opened) then Fail(DrawerCovered(drawer, MiddleDrawer))
    else if drawer == LowDrawer && ObjectState(g, HighDrawer) == Some(Opened) then Fail(DrawerCovered(drawer, HighDrawer))
    else if drawer == MiddleDrawer && ObjectState(g, HighDrawer) == Some(Opened) then Fail(DrawerCovered(drawer, HighDrawer))
    else Pass
  }

  /** A drawer is usable exactly when it is open and no drawer above it is open. */
  lemma DrawerRule(g: Graph, drawer: string)
    ensures DrawerCheck(g, drawer).Pass? <==>
      ObjectState(g, drawer) == Some(Opened) &&
      (drawer == LowDrawer ==> ObjectState(g, MiddleDrawer) != Some(Opened) && ObjectState(g, HighDrawer) != Some(Opened)) &&
      (drawer == MiddleDrawer ==> ObjectState(g, HighDrawer) != Some(Opened))
  {
    assert LowDrawer != MiddleDrawer by { assert LowDrawer[21] != MiddleDrawer[21]; }
  }

  // ----- movability and access -----

  /** The object sitting on `name` according to the first such "(on)" edge. */
  function FirstCover(edges: seq<string>, name: string): (r: Option<string>)
    ensures r.None? <==> forall i :: 0 <= i < |edges| ==> !(Halves(edges[i], "(on)").Some? && Halves(edges[i], "(on)").value.1 == name)
  {
    if edges == [] then None
    else
      match Halves(edges[0], "(on)")
      case Some((above, target)) =>
        if target == name then Some(above)
        else
          var r := FirstCover(edges[1..], name);
          assert forall i :: 0 < i < |edges| ==> edges[i] == edges[1..][i - 1];
          r
      case None =>
        var r := FirstCover(edges[1..], name);
        assert forall i :: 0 < i < |edges| ==> edges[i] == edges[1..][i - 1];
        r
  }

  /** The container of `name` according to the first "NAME(in)C" edge. */
  function FirstContainer(edges: seq<string>, name: string): Option<string>
  {
    if edges == [] then None
    else
      match Halves(edges[0], "(in)")
      case Some((inner, container)) =>
        if inner == name then Some(container) else FirstContainer(edges[1..], name)
      case None => FirstContainer(edges[1..], name)
  }

  /** Whether `name` may be picked up. */
  function CanMoveObject(g: Graph, name: string): Check
  {
    match FirstCover(g.edges, name)
    case Some(blocker) => Fail(BlockedFromAbove(name, blocker))
    case None =>
      match FirstContainer(g.edges, name)
      case None => Pass
      case Some(c) =>
        if c == [] then Pass
        else if ObjectState(g, c) == Some(Closed) then Fail(ContainerClosed(c))
        else if Contains(c, "drawer") && DrawerCheck(g, c).Fail? then DrawerCheck(g, c)
        else
          match FirstCover(g.edges, c)
          case Some(blocker) => Fail(ContainerBlocked(c, blocker))
          case None => Pass
  }

  /** Moving is refused exactly when something sits on the object or its container cannot be reached. */
  lemma MoveRule(g: Graph, name: string)
    ensures FirstCover(g.edges, name).Some? ==> CanMoveObject(g, name) == Fail(BlockedFromAbove(name, FirstCover(g.edges, name).value))
    ensures FirstCover(g.edges, name).None? && (FirstContainer(g.edges, name).None? || FirstContainer(g.edges, name) == Some([]))
            ==> CanMoveObject(g, name) == Pass
    ensures FirstCover(g.edges, name).None? && FirstContainer(g.edges, name).Some? ==>
      var c := FirstContainer(g.edges, name).value;
      c != [] ==>
        (CanMoveObject(g, name).Pass? <==>
           ObjectState(g, c) != Some(Closed) &&
           (Contains(c, "drawer") ==> DrawerCheck(g, c).Pass?) &&
           FirstCover(g.edges, c).None?)
  {
  }

  lemma {:induction false} StackHalvesAreHalves(e: string)
    requires StackHalves(e).Some?
    ensures Halves(e, "(on)") == StackHalves(e)
  {
  }

  /**
   * When no edge carries a state suffix, every object the analysis lists as
   * blocked is one the move check refuses to pick up.
   */
  lemma BlockedObjectsCannotMove(g: Graph, x: string)
    requires forall i :: 0 <= i < |g.edges| ==> !Contains(g.edges[i], "(open)") && !Contains(g.edges[i], "(closed)")
    requires x in Analyze(g).blocked
    ensures CanMoveObject(g, x).Fail?
  {
    BlockedExactly(g.edges, x);
    var i, a, b :| 0 <= i < |g.edges| && StackHalves(g.edges[i]) == Some((a, b)) && CleanState(b) == x && x != "table";
    StackHalvesAreHalves(g.edges[i]);
    HalfHasNoState(g.edges[i], "(on)");
    assert CleanState(b) == b;
  }

  /** A half of a state-free edge is state-free, so cleaning leaves it alone. */
  lemma HalfHasNoState(e: string, sep: string)
    requires sep != []
    requires !Contains(e, "(open)") && !Contains(e, "(closed)")
    requires Halves(e, sep).Some?
    ensures CleanState(Halves(e, sep).value.1) == Halves(e, sep).value.1
  {
    var parts := Split(e, sep);
    var j :| IndexOf(e, sep) == Some(j);
    assert parts[1] == Split(e[j + |sep|..], sep)[0];
    SplitHeadIsInfix(e[j + |sep|..], sep);
    var rest := e[j + |sep|..];
    InfixKeepsAbsence(e, j + |sep|, Split(rest, sep)[0], "(open)");
    InfixKeepsAbsence(e, j + |sep|, Split(rest, sep)[0], "(closed)");
    StripKeepsAbsence(parts[1], "(open)");
    StripKeepsAbsence(parts[1], "(closed)");
  }

  lemma SplitHeadIsInfix(s: string, sep: string)
    requires sep != []
    ensures Split(s, sep)[0] <= s
  {
  }

  lemma InfixKeepsAbsence(e: string, k: nat, p: string, pat: string)
    requires k <= |e| && p <= e[k..]
    requires !Contains(e, pat)
    ensures !Contains(p, pat)
  {
    if Contains(p, pat) {
      var i: nat :| i <= |p| && OccursAt(p, pat, i);
      assert e[k + i..k + i + |pat|] == p[i..i + |pat|];
      assert OccursAt(e, pat, k + i);
    }
  }

  lemma StripKeepsAbsence(s: string, pat: string)
    requires pat != [] && !Contains(s, pat)
    ensures !Contains(Strip(s), pat)
  {
    var l := Run(s, IsSpace);
    var t := Strip(s);
    assert t <= s[l..];
    InfixKeepsAbsence(s, l, t, pat);
  }

  /** Every object named as sitting on `target`, in edge order. */
  function CoversOf(edges: seq<string>, target: string): seq<string>
  {
    if edges == [] then []
    else
      (match Halves(edges[0], "(on)")
       case Some((above, t)) => if t == target then [above] else []
       case None => []) + CoversOf(edges[1..], target)
  }

  lemma {:induction false} CoversOfEmptyIffNoCover(edges: seq<string>, target: string)
    ensures CoversOf(edges, target) == [] <==> FirstCover(edges, target).None?
  {
    if edges != [] { CoversOfEmptyIffNoCover(edges[1..], target); }
  }

  /** Whether objects can be put on or into `target`. */
  function CanAccessTarget(g: Graph, target: string): Check
  {
    var covers := CoversOf(g.edges, target);
    if covers != [] then Fail(TargetBlocked(target, covers))
    else if (Contains(target, "lid_box") || Contains(target, "drawer")) && ObjectState(g, target) == Some(Closed) then Fail(TargetClosed(target))
    else if Contains(target, "drawer") && DrawerCheck(g, target).Fail? then DrawerCheck(g, target)
    else Pass
  }

  /** A target is reachable exactly when nothing sits on it and, for a lid box or drawer, it is not shut. */
  lemma AccessRule(g: Graph, target: string)
    ensures CanAccessTarget(g, target).Pass? <==>
      FirstCover(g.edges, target).None? &&
      ((Contains(target, "lid_box") || Contains(target, "drawer")) ==> ObjectState(g, target) != Some(Closed)) &&
      (Contains(target, "drawer") ==> DrawerCheck(g, target).Pass?)
  {
    CoversOfEmptyIffNoCover(g.edges, target);
  }

  // ----- cube checks -----

  /**
   * Where the first edge naming the cube puts it: an "(in)" edge first, then an
   * "(on)" edge, each only when its left half is exactly the cube. The flag says
   * whether that place counts as a container.
   */
  function CubePlace(edges: seq<string>, cube: string, onCountsAsContainer: bool): Option<(string, bool)>
  {
    if edges == [] then None
    else if Contains(edges[0], cube + "(in)") then
      match Halves(edges[0], "(in)")
      case Some((a, b)) => if a == cube then Some((b, true)) else CubePlace(edges[1..], cube, onCountsAsContainer)
      case None => CubePlace(edges[1..], cube, onCountsAsContainer)
    else if Contains(edges[0], cube + "(on)") then
      match Halves(edges[0], "(on)")
      case Some((a, b)) =>
        if a == cube then Some((b, onCountsAsContainer && b != "table")) else CubePlace(edges[1..], cube, onCountsAsContainer)
      case None => CubePlace(edges[1..], cube, onCountsAsContainer)
    else CubePlace(edges[1..], cube, onCountsAsContainer)
  }

  /** Objects on "(on)" edges that end exactly with "(on)PLACE", in edge order. */
  function EndCovers(edges: seq<string>, place: string): seq<string>
  {
    if edges == [] then []
    else
      (if Contains(edges[0], "(on)") && EndsWith(edges[0], "(on)" + place) && |Split(edges[0], "(on)")| == 2
       then [Strip(Split(edges[0], "(on)")[0])] else []) + EndCovers(edges[1..], place)
  }

  /** A cube may be taken from where it is only if that place is known and nothing sits on it. */
  function CubeSourceCheck(g: Graph, cube: string): Check
  {
    match CubePlace(g.edges, cube, true)
    case None => Fail(CubeLocationUnknown(cube))
    case Some((place, inContainer)) =>
      if place == [] then Fail(CubeLocationUnknown(cube))
      else if place == "table" then Pass
      else if inContainer && EndCovers(g.edges, place) != [] then Fail(CubeContainerBlocked(place, EndCovers(g.edges, place)))
      else Pass
  }

  /** A cube on the table is always reachable; one in a container is reachable iff nothing sits on that container. */
  lemma CubeSourceRule(g: Graph, cube: string)
    ensures CubePlace(g.edges, cube, true).None? ==> CubeSourceCheck(g, cube) == Fail(CubeLocationUnknown(cube))
    ensures CubePlace(g.edges, cube, true).Some? ==>
      var (place, _) := CubePlace(g.edges, cube, true).value;
      place != [] && place != "table" ==> (CubeSourceCheck(g, cube).Pass? <==> EndCovers(g.edges, place) == [])
  {
    if CubePlace(g.edges, cube, true).Some? {
      var (place, inContainer) := CubePlace(g.edges, cube, true).value;
      if place != [] && place != "table" { CubePlaceContainerFlag(g.edges, cube); }
    }
  }

  /** With "(on)" counting as a container, every place other than the table is a container. */
  lemma {:induction false} CubePlaceContainerFlag(edges: seq<string>, cube: string)
    ensures CubePlace(edges, cube, true).Some? && CubePlace(edges, cube, true).value.0 != "table"
            ==> CubePlace(edges, cube, true).value.1
  {
    if edges != [] { CubePlaceContainerFlag(edges[1..], cube); }
  }

  /** Cubes recorded in `target` by "(in)" edges ending exactly with "(in)TARGET". */
  function CubesIn(edges: seq<string>, target: string): nat
  {
    if edges == [] then 0
    else
      CubesIn(edges[..|edges| - 1], target) +
      (if CountsAsCubeIn(edges[|edges| - 1], target) then 1 else 0)
  }

  predicate CountsAsCubeIn(e: string, target: string)
  {
    Contains(e, "(in)") && EndsWith(e, "(in)" + target) && |Split(e, "(in)")| == 2
    && IsCube(Strip(Split(e, "(in)")[0]))
  }

  /** The cube count of a target box, as the placement check's loop computes it. */
  method CountCubesIn(edges: seq<string>, target: string) returns (n: nat)
    ensures n == CubesIn(edges, target)
  {
    n := 0;
    for i := 0 to |edges|
      invariant n == CubesIn(edges[..i], target)
    {
      assert edges[..i + 1][..i] == edges[..i];
      var e := edges[i];
      if Contains(e, "(in)") && EndsWith(e, "(in)" + target) {
        var parts := Split(e, "(in)");
        if |parts| == 2 && IsCube(Strip(parts[0])) {
          n := n + 1;
        }
      }
    }
    assert edges[..|edges|] == edges;
  }

  /** The capacity the placement check enforces: a box holding ten or more cubes is full. */
  const CubeCapacity := 10

  /** The cube-into-box check, given the number of cubes already in the box. */
  function CubePlacementGivenCount(g: Graph, cube: string, target: string, cubesInTarget: nat): Check
  {
    var place := CubePlace(g.edges, cube, false);
    if place.Some? && place.value.1 && place.value.0 != [] && EndCovers(g.edges, place.value.0) != []
    then Fail(CubeContainerBlocked(place.value.0, EndCovers(g.edges, place.value.0)))
    else if EndCovers(g.edges, target) != [] then Fail(TargetBlocked(target, EndCovers(g.edges, target)))
    else if cubesInTarget >= CubeCapacity then Fail(BoxFull(target, cubesInTarget))
    else Pass
  }

  function CubePlacementCheck(g: Graph, cube: string, target: string): Check
  {
    CubePlacementGivenCount(g, cube, target, CubesIn(g.edges, target))
  }

  /** Once the source and target are clear, a cube is refused exactly when the box already holds ten cubes. */
  lemma CubeCapacityRule(g: Graph, cube: string, target: string)
    requires var place := CubePlace(g.edges, cube, false);
      !(place.Some? && place.value.1 && place.value.0 != [] && EndCovers(g.edges, place.value.0) != [])
    requires EndCovers(g.edges, target) == []
    ensures CubePlacementCheck(g, cube, target).Pass? <==> CubesIn(g.edges, target) < 10
  {
  }

  /** Whether the requested relation already holds. */
  predicate AlreadyCompleted(g: Graph, source: string, relation: string, target: string)
  {
    source + "(" + relation + ")" + target in g.edges ||
    (target == "table" && source + "(on)table" in g.edges)
  }
}
