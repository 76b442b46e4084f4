// The type-1 judge of report_analysis/Auto_extract_report_data_batch.py
// (`rule_based_task_success_judge`): a goal "move A into B" selects the items
// A from the final scene graph and names the target B; the judge counts the
// selected items whose current location is B.
module MoveJudge {
  import opened Text
  import opened SceneAnalysis
  import opened ReportScene
  import ColourJudges

  // ----- words of the lowered goal -----

  /** `w\s+` at `p`: the position after the word and its spaces, when at least one space follows. */
  function Keyword(l: string, p: nat, w: string): (r: Option<nat>)
    ensures r.Some? ==> p + |w| < r.value <= |l|
  {
    if OccursAt(l, w, p) then
      var s := Run(l[p + |w|..], IsSpace);
      if s > 0 then Some(p + |w| + s) else None
    else None
  }

  /** `\s+(?:into|in)\s+` at `q`: the position after it. */
  function InTail(l: string, q: nat): (r: Option<nat>)
    requires q <= |l|
    ensures r.Some? ==> q < r.value <= |l|
  {
    var s := Run(l[q..], IsSpace);
    if s == 0 then None
    else
      var into := Keyword(l, q + s, "into");
      if into.Some? then into else Keyword(l, q + s, "in")
  }

  /** `(cubes|mugs)\s+(?:into|in)\s+` at `p`: the kind, as `rstrip('s')` leaves it. */
  function KindThenIn(l: string, p: nat): (r: Option<string>)
    requires p <= |l|
    ensures r.Some? ==> r.value == "cube" || r.value == "mug"
  {
    if OccursAt(l, "cubes", p) && InTail(l, p + 5).Some? then Some("cube")
    else if OccursAt(l, "mugs", p) && InTail(l, p + 4).Some? then Some("mug")
    else None
  }

  /**
   * `(\w+)_(cubes|mugs)\s+(?:into|in)\s+` at `r` with the word cut to `k`
   * characters, backtracking to fewer: the colour and the kind.
   */
  function ColourFrom(l: string, r: nat, k: nat): (m: Option<(string, string)>)
    requires r + k <= |l|
    ensures m.Some? ==> m.value.0 != [] && (m.value.1 == "cube" || m.value.1 == "mug")
    decreases k
  {
    if k == 0 then None
    else if r + k < |l| && l[r + k] == '_' && KindThenIn(l, r + k + 1).Some? then
      Some((l[r..r + k], KindThenIn(l, r + k + 1).value))
    else ColourFrom(l, r, k - 1)
  }

  /** The colour pattern at `r`, the greedy `\w+` starting from the whole word run. */
  function ColourAt(l: string, r: nat): Option<(string, string)>
    requires r <= |l|
  {
    ColourFrom(l, r, Run(l[r..], IsWordChar))
  }

  /** `(?:the\s+)?` before the colour pattern: with `the ` first, then without. */
  function AfterThe(l: string, q: nat): Option<(string, string)>
    requires q <= |l|
  {
    var t := Keyword(l, q, "the");
    var withThe := if t.Some? then ColourAt(l, t.value) else None;
    if withThe.Some? then withThe else ColourAt(l, q)
  }

  /** `re.match(r'move\s+(?:all\s+)?(?:the\s+)?(\w+)_(cubes|mugs)\s+(?:into|in)\s+', l)`: colour and kind. */
  function ColourSelection(l: string): Option<(string, string)>
  {
    var v := Keyword(l, 0, "move");
    if v.None? then None
    else
      var a := Keyword(l, v.value, "all");
      var withAll := if a.Some? then AfterThe(l, a.value) else None;
      if withAll.Some? then withAll else AfterThe(l, v.value)
  }

  /** `re.match(r'(move|put)\s+all\s+(?:the\s+)?(cubes|mugs)\s+(?:into|in)\s+', l)`. */
  predicate KindPattern(l: string)
  {
    var v := if Keyword(l, 0, "move").Some? then Keyword(l, 0, "move") else Keyword(l, 0, "put");
    v.Some? &&
    var a := Keyword(l, v.value, "all");
    a.Some? &&
    var t := Keyword(l, a.value, "the");
    (t.Some? && KindThenIn(l, t.value).Some?) || KindThenIn(l, a.value).Some?
  }

  /** `(cubes|mugs)` at the head of `t`, singular. */
  function KindWord(t: string): Option<string>
  {
    if StartsWith(t, "cubes") then Some("cube")
    else if StartsWith(t, "mugs") then Some("mug")
    else None
  }

  /** What the goal says to move. */
  datatype Selection =
    | Coloured(colour: string, kind: string)   // A-type 1: every `<colour>_<kind><digits>` node
    | OfKind(kind: string)                     // A-type 2: every cube, or every mug, of any colour
    | KindNotFound                             // A-type 2 whose `re.search` finds no kind: the call raises
    | FromTable                                // A-type 3: the items on the table, or moved from it
    | NoSelection                              // nothing to move

  /** The A-type tests, in the judge's order. */
  function SelectionOf(l: string): Selection
  {
    var c := ColourSelection(l);
    if c.Some? then Coloured(c.value.0, c.value.1)
    else if KindPattern(l) then
      match Search(l, KindWord, 0)
      case Some((_, kind)) => OfKind(kind)
      case None => KindNotFound
    else if Contains(l, "items on table") || Contains(l, "items on the table") then FromTable
    else NoSelection
  }

  // ----- the target -----

  /** The first word after `into`/`in`, if the goal says one. */
  datatype TargetText = NotSaid | NoWord | Said(word: string)

  /** `\s+(?:into|in)\s+` at the head of `t`: its length. */
  function InSeparator(t: string): Option<nat>
  {
    InTail(t, 0)
  }

  /** Trailing characters of `[.,!?;:\s]`. */
  predicate IsTrailing(c: char) { c == '.' || c == ',' || c == '!' || c == '?' || c == ';' || c == ':' || IsSpace(c) }

  /** `re.sub(r'[.,!?;:\s]+$', '', s)`: the string without its trailing run of those characters. */
  function TrimTrailing(s: string): (r: string)
    ensures |r| <= |s| && r == s[..|r|]
    ensures r != [] ==> !IsTrailing(r[|r| - 1])
    decreases |s|
  {
    if s != [] && IsTrailing(s[|s| - 1]) then
      var r := TrimTrailing(s[..|s| - 1]);
      assert s[..|s| - 1][..|r|] == s[..|r|];
      r
    else s
  }

  predicate NotSpace(c: char) { !IsSpace(c) }

  /**
   * `parts = re.split(r'\s+(?:into|in)\s+', l, 1)` and, with two parts,
   * `parts[1].strip().split()[0]` cleaned of trailing punctuation; `NoWord`
   * when the second part is blank (the `IndexError`).
   */
  function TargetWord(l: string): TargetText
  {
    if !(Contains(l, "into") || Contains(l, " in ")) then NotSaid
    else
      match Search(l, InSeparator, 0)
      case None => NotSaid
      case Some((i, n)) =>
        var rest := Strip(l[i + n..]);
        if rest == [] then NoWord
        else Said(TrimTrailing(rest[..Run(rest, NotSpace)]))
  }

  /** The first node whose lowered name contains `word` or ends with it. */
  function NodeNaming(nodes: seq<string>, word: string): (r: Option<string>)
    ensures r.Some? ==> r.value in nodes && Contains(Lower(r.value), word)
    ensures r.None? <==> forall n :: n in nodes ==> !Contains(Lower(n), word) && !EndsWith(Lower(n), word)
  {
    if nodes == [] then None
    else if Contains(Lower(nodes[0]), word) || EndsWith(Lower(nodes[0]), word) then
      EndsWithContains(Lower(nodes[0]), word);
      Some(nodes[0])
    else NodeNaming(nodes[1..], word)
  }

  /** A suffix occurs in the string. */
  lemma EndsWithContains(s: string, word: string)
    ensures EndsWith(s, word) ==> Contains(s, word)
  {
    if EndsWith(s, word) {
      assert s[|s| - |word|..][..|word|] == word;
      assert OccursAt(s, word, |s| - |word|);
    }
  }

  /** `re.sub(r'\(open\)|\(closed\)$', '', node)`: every `(open)`, and `(closed)` at the end, removed. */
  function RemoveStates(s: string): (r: string)
    ensures |r| <= |s|
    decreases |s|
  {
    if s == [] then []
    else if StartsWith(s, "(open)") then RemoveStates(s[6..])
    else if s == "(closed)" || s == "(closed)\n" then s[8..]
    else [s[0]] + RemoveStates(s[1..])
  }

  const Cabinet := "short_cabinet/"

  /** A drawer word not found among the nodes is taken to be in the short cabinet. */
  function InCabinet(word: string): (r: string)
    ensures StartsWith(r, Cabinet) && EndsWith(r, word)
  {
    if StartsWith(word, Cabinet) then
      assert word[|word| - |word|..] == word;
      word
    else
      assert (Cabinet + word)[..|Cabinet|] == Cabinet;
      assert (Cabinet + word)[|Cabinet + word| - |word|..] == word;
      Cabinet + word
  }

  /** `target_location` for a target word: a box as said, a drawer as the scene names it, else none. */
  function TargetOf(word: string, nodes: seq<string>): (r: Option<string>)
    ensures r.Some? ==> r.value != []
  {
    if EndsWith(word, "_box") || EndsWith(word, "_lid_box") then Some(word)
    else if Contains(word, "drawer") then
      var found := NodeNaming(nodes, word);
      var named := if found.Some? then RemoveStates(found.value) else [];
      if named != [] then Some(named) else Some(InCabinet(word))
    else None
  }

  /** `temp_target` of the items-on-table goal: as `TargetOf`, but a word that is neither kept as said, and a found node kept even when empty. */
  function TempTargetOf(word: string, nodes: seq<string>): string
  {
    if EndsWith(word, "_box") || EndsWith(word, "_lid_box") then word
    else if Contains(word, "drawer") then
      var found := NodeNaming(nodes, word);
      if found.Some? then RemoveStates(found.value) else InCabinet(word)
    else word
  }

  // ----- where an item is -----

  /** `re.match(rf'^{re.escape(node)}\((in|on)\)([\w\/]+)', edge)`: the location this edge gives `node`. */
  function EdgeLocation(edge: string, node: string): (r: Option<string>)
    ensures r.Some? ==> r.value != [] && AllChars(r.value, IsPathChar)
  {
    if StartsWith(edge, node) && |node| + 4 <= |edge| && IsRelation(edge[|node|..|node| + 4]) then
      var loc := edge[|node| + 4..];
      var m := Run(loc, IsPathChar);
      if m > 0 then Some(loc[..m]) else None
    else None
  }

  /** The location of the first edge placing `node`, else `table`. */
  function CurrentLocation(edges: seq<string>, node: string): (loc: string)
    ensures loc == "table" || exists i :: 0 <= i < |edges| && EdgeLocation(edges[i], node) == Some(loc)
  {
    if edges == [] then "table"
    else
      match EdgeLocation(edges[0], node)
      case Some(loc) => loc
      case None =>
        var loc := CurrentLocation(edges[1..], node);
        assert forall i :: 0 <= i < |edges| - 1 ==> edges[1..][i] == edges[i + 1];
        loc
  }

  // ----- the items selected -----

  /** `"_cube" in node.lower()` for cubes, `"mug" in node.lower()` for mugs. */
  predicate OfKindNode(node: string, kind: string)
  {
    (kind == "cube" && Contains(Lower(node), "_cube")) || (kind == "mug" && Contains(Lower(node), "mug"))
  }

  /** The nodes of a kind, in node order. */
  function KindFilter(nodes: seq<string>, kind: string): (r: seq<string>)
    ensures forall n :: n in r <==> n in nodes && OfKindNode(n, kind)
  {
    if nodes == [] then []
    else
      var init := KindFilter(nodes[..|nodes| - 1], kind);
      var n := nodes[|nodes| - 1];
      assert forall x :: x in nodes <==> x in nodes[..|nodes| - 1] || x == n;
      if OfKindNode(n, kind) then init + [n] else init
  }

  /** `re.match(r'(\w+)\((on)\)table', edge)`: the item on the table. */
  function OnTable(edge: string): (r: Option<string>)
    ensures r.Some? ==> r.value != []
  {
    var n := Run(edge, IsWordChar);
    if n > 0 && OccursAt(edge, "(on)table", n) then Some(edge[..n]) else None
  }

  /** A container by `container_keywords`: its lowered name mentions one of them. */
  predicate IsContainer(item: string)
  {
    var l := Lower(item);
    Contains(l, "table") || Contains(l, "box") || Contains(l, "drawer") || Contains(l, "cabinet") ||
    Contains(l, "lid_box") || Contains(l, "container") || Contains(l, "short_cabinet")
  }

  /** The item an edge names, kept when `f` keeps it. */
  function Gather(edges: seq<string>, f: string -> Option<string>): set<string>
  {
    set e | e in edges && f(e).Some? :: f(e).value
  }

  /** One more edge adds at most its own item. */
  lemma GatherSnoc(edges: seq<string>, e: string, f: string -> Option<string>)
    ensures Gather(edges + [e], f) == Gather(edges, f) + (if f(e).Some? then {f(e).value} else {})
  {
    assert forall x :: x in edges + [e] <==> x in edges || x == e;
  }

  /** An edge placing a non-container item on the table: the item. */
  function TableItem(edge: string): Option<string>
  {
    var m := OnTable(edge);
    if m.Some? && !IsContainer(m.value) && m.value != "table" then m else None
  }

  /** An edge placing a non-container item at `temp`: the item. */
  function MovedItem(edge: string, temp: string): Option<string>
  {
    var m := EdgeMatch(edge);
    if m.Some? && m.value.1 == temp && !IsContainer(m.value.0) then Some(m.value.0) else None
  }

  /** The non-container items still on the table. */
  function LeftOnTable(edges: seq<string>): set<string>
  {
    Gather(edges, TableItem)
  }

  /** The non-container items whose edge places them at `temp`. */
  function MovedTo(edges: seq<string>, temp: string): set<string>
  {
    Gather(edges, e => MovedItem(e, temp))
  }

  /** `all_items_from_table`: the items left on the table, and, when `temp_target` is known, those moved there. */
  function TableItems(edges: seq<string>, temp: string): set<string>
  {
    if temp != [] then LeftOnTable(edges) + MovedTo(edges, temp) else LeftOnTable(edges)
  }

  /** The items the judge checks, as a list; the items-on-table goal gives a set. */
  function Listed(g: Graph, sel: Selection): seq<string>
  {
    match sel
    case Coloured(c, k) => ColourJudges.ColourFilter(g.nodes, c, k)
    case OfKind(k) => KindFilter(g.nodes, k)
    case _ => []
  }

  /** How many of `items` are at `target`. */
  function CountAt(edges: seq<string>, items: seq<string>, target: string): (n: nat)
    ensures n <= |items|
  {
    if items == [] then 0
    else CountAt(edges, items[..|items| - 1], target) + (if CurrentLocation(edges, items[|items| - 1]) == target then 1 else 0)
  }

  /** Of a set, those at `target`. */
  function AtTarget(edges: seq<string>, items: set<string>, target: string): set<string>
  {
    set x | x in items && CurrentLocation(edges, x) == target
  }

  /** `temp_target`, known when the goal says a word after `into`/`in`. */
  function TempTarget(g: Graph, said: TargetText): string
  {
    if said.Said? then TempTargetOf(said.word, g.nodes) else []
  }

  /** The items the judge checks, as a set. */
  function Selected(g: Graph, sel: Selection, said: TargetText): set<string>
  {
    if sel.FromTable? then TableItems(g.edges, TempTarget(g, said)) else set x | x in Listed(g, sel)
  }

  /** `(correct_count, total_count)` of the selection. */
  function Counts(g: Graph, sel: Selection, said: TargetText, target: string): (c: (nat, nat))
    ensures c.0 <= c.1
  {
    if sel.FromTable? then
      var items := TableItems(g.edges, TempTarget(g, said));
      SubsetCard(AtTarget(g.edges, items, target), items);
      (|AtTarget(g.edges, items, target)|, |items|)
    else
      var items := Listed(g, sel);
      (CountAt(g.edges, items, target), |items|)
  }

  // ----- the judge -----

  /**
   * The judge; `None` where it raises (a blank word after `into`, or an
   * A-type 2 goal whose kind search finds nothing), which the dispatcher
   * turns into a crash.
   */
  function MoveInto(g: Graph, goal: string): (r: Option<Judgement>)
    ensures r.Some? ==> Consistent(r.value) && WithinTotal(r.value.progress) && r.value.progress.correct.Whole?
  {
    if goal == [] then Some(Judgement(false, Progress(Whole(0), 0, None), Some(NoGoal)))
    else Judge(g, SelectionOf(Lower(goal)), TargetWord(Lower(goal)))
  }

  /** The judge of a non-empty goal, on what the goal selects and the word it says after `into`/`in`. */
  function Judge(g: Graph, sel: Selection, said: TargetText): (r: Option<Judgement>)
    ensures r.Some? ==> Consistent(r.value) && WithinTotal(r.value.progress) && r.value.progress.correct.Whole?
  {
    if sel.KindNotFound? || said.NoWord? then None
    else
      var target := if said.Said? then TargetOf(said.word, g.nodes) else None;
      if target.None? then Some(Judgement(false, Progress(Whole(0), 0, None), Some(TargetUnclear)))
      else
        var (correct, total) := Counts(g, sel, said, target.value);
        if correct == total then Some(Judgement(true, Progress(Whole(total), total, None), None))
        else Some(Judgement(false, Progress(Whole(correct), total, None), Some(TargetIncomplete(correct, total))))
  }

  // ----- what the verdict means -----

  /** A match of `(cubes|mugs)\s+(?:into|in)\s+` is a match of `(cubes|mugs)`. */
  lemma KindThenInWord(l: string, p: nat)
    requires p <= |l| && KindThenIn(l, p).Some?
    ensures KindWord(l[p..]).Some?
  {
    if OccursAt(l, "cubes", p) {
      assert l[p..][..5] == "cubes";
    } else {
      assert l[p..][..4] == "mugs";
    }
  }

  /** The kind search after an A-type 2 match always finds a kind: `.group(1)` never raises. */
  lemma KindAlwaysFound(l: string)
    ensures !SelectionOf(l).KindNotFound?
  {
    if ColourSelection(l).None? && KindPattern(l) {
      var v := if Keyword(l, 0, "move").Some? then Keyword(l, 0, "move") else Keyword(l, 0, "put");
      var a := Keyword(l, v.value, "all");
      var t := Keyword(l, a.value, "the");
      var p := if t.Some? && KindThenIn(l, t.value).Some? then t.value else a.value;
      KindThenInWord(l, p);
    }
  }

  /** All of a list are at the target exactly when every one of them is counted. */
  lemma {:induction false} CountAtAll(edges: seq<string>, items: seq<string>, target: string)
    ensures CountAt(edges, items, target) == |items| <==> forall x :: x in items ==> CurrentLocation(edges, x) == target
  {
    if items != [] {
      var init := items[..|items| - 1];
      var last := items[|items| - 1];
      CountAtAll(edges, init, target);
      assert items == init + [last];
      assert forall x :: x in items <==> x in init || x == last;
      assert CountAt(edges, items, target) == CountAt(edges, init, target) + (if CurrentLocation(edges, last) == target then 1 else 0);
    }
  }

  /** All of a set are at the target exactly when its part at the target is as large as it. */
  lemma AtTargetAll(edges: seq<string>, items: set<string>, target: string)
    ensures |AtTarget(edges, items, target)| == |items| <==> forall x :: x in items ==> CurrentLocation(edges, x) == target
  {
    SubsetCard(AtTarget(edges, items, target), items);
    if forall x :: x in items ==> CurrentLocation(edges, x) == target {
      assert AtTarget(edges, items, target) == items;
    }
  }

  /** A resolved target: the judge succeeds exactly when every selected item is at it. */
  lemma JudgeVerdict(g: Graph, sel: Selection, said: TargetText)
    requires !sel.KindNotFound? && said.Said? && TargetOf(said.word, g.nodes).Some?
    ensures Judge(g, sel, said).Some?
    ensures Judge(g, sel, said).value.success <==>
      forall x :: x in Selected(g, sel, said) ==> CurrentLocation(g.edges, x) == TargetOf(said.word, g.nodes).value
  {
    var target := TargetOf(said.word, g.nodes).value;
    if sel.FromTable? {
      AtTargetAll(g.edges, TableItems(g.edges, TempTarget(g, said)), target);
    } else {
      CountAtAll(g.edges, Listed(g, sel), target);
    }
  }

  /** The judge succeeds exactly when every selected item is at the target it resolves. */
  lemma MoveIntoVerdict(g: Graph, goal: string)
    requires goal != [] && TargetWord(Lower(goal)).Said?
    requires TargetOf(TargetWord(Lower(goal)).word, g.nodes).Some?
    ensures MoveInto(g, goal).Some?
    ensures MoveInto(g, goal).value.success <==>
      forall x :: x in Selected(g, SelectionOf(Lower(goal)), TargetWord(Lower(goal))) ==>
        CurrentLocation(g.edges, x) == TargetOf(TargetWord(Lower(goal)).word, g.nodes).value
  {
    KindAlwaysFound(Lower(goal));
    JudgeVerdict(g, SelectionOf(Lower(goal)), TargetWord(Lower(goal)));
  }

  /** A goal that selects nothing is judged a success, whatever the scene. */
  lemma NothingSelectedSucceeds(g: Graph, goal: string)
    requires goal != [] && TargetWord(Lower(goal)).Said?
    requires TargetOf(TargetWord(Lower(goal)).word, g.nodes).Some?
    requires SelectionOf(Lower(goal)).NoSelection?
    ensures MoveInto(g, goal) == Some(Judgement(true, Progress(Whole(0), 0, None), None))
  {
    var said := TargetWord(Lower(goal));
    assert MoveInto(g, goal) == Judge(g, NoSelection, said);
    JudgeNothing(g, said);
  }

  /** With no selection the count is 0 of 0. */
  lemma JudgeNothing(g: Graph, said: TargetText)
    requires said.Said? && TargetOf(said.word, g.nodes).Some?
    ensures Judge(g, NoSelection, said) == Some(Judgement(true, Progress(Whole(0), 0, None), None))
  {
    assert Counts(g, NoSelection, said, TargetOf(said.word, g.nodes).value) == (0, 0);
  }

  /** The judge raises exactly when the goal says nothing after `into`/`in`. */
  lemma MoveIntoRaises(g: Graph, goal: string)
    ensures MoveInto(g, goal).None? <==> goal != [] && TargetWord(Lower(goal)).NoWord?
  {
    if goal != [] {
      KindAlwaysFound(Lower(goal));
    }
  }

  /** Without a box or drawer word after `into`/`in` the target is unclear, and nothing is counted. */
  lemma JudgeUnclear(g: Graph, sel: Selection, said: TargetText)
    requires !sel.KindNotFound? && !said.NoWord?
    ensures Judge(g, sel, said) == Some(Judgement(false, Progress(Whole(0), 0, None), Some(TargetUnclear))) <==>
      said.NotSaid? || (!EndsWith(said.word, "_box") && !EndsWith(said.word, "_lid_box") && !Contains(said.word, "drawer"))
  {
  }

  /** A goal without a box or drawer word after `into`/`in` is judged with the target unclear. */
  lemma MoveIntoUnclear(g: Graph, goal: string)
    requires goal != [] && !TargetWord(Lower(goal)).NoWord?
    ensures MoveInto(g, goal) == Some(Judgement(false, Progress(Whole(0), 0, None), Some(TargetUnclear))) <==>
      TargetWord(Lower(goal)).NotSaid? ||
      (var w := TargetWord(Lower(goal)).word;
       !EndsWith(w, "_box") && !EndsWith(w, "_lid_box") && !Contains(w, "drawer"))
  {
    KindAlwaysFound(Lower(goal));
    JudgeUnclear(g, SelectionOf(Lower(goal)), TargetWord(Lower(goal)));
  }

  // ----- the judge's loops -----

  /** The judge in the order of the source: the items, then the target, then the count. */
  method JudgeMoveInto(g: Graph, goal: string) returns (r: Option<Judgement>)
    ensures r == MoveInto(g, goal)
  {
    if goal == [] {
      return Some(Judgement(false, Progress(Whole(0), 0, None), Some(NoGoal)));
    }
    var l := Lower(goal);
    var sel := SelectionOf(l);
    var said := TargetWord(l);
    if sel.KindNotFound? || said.NoWord? {
      return None;
    }
    var target: Option<string> := None;
    if said.Said? {
      target := ResolveTarget(said.word, g.nodes);
    }
    if target.None? {
      return Some(Judgement(false, Progress(Whole(0), 0, None), Some(TargetUnclear)));
    }
    var correct, total;
    if sel.FromTable? {
      var temp := TempTarget(g, said);
      var items := CollectTableItems(g.edges, temp);
      correct := CountSetAt(g.edges, items, target.value);
      total := |items|;
    } else {
      var items := ListItems(g, sel);
      correct := CountPlaced(g.edges, items, target.value);
      total := |items|;
    }
    if correct == total {
      r := Some(Judgement(true, Progress(Whole(total), total, None), None));
    } else {
      r := Some(Judgement(false, Progress(Whole(correct), total, None), Some(TargetIncomplete(correct, total))));
    }
  }

  /** Step 2: a box word as said; a drawer word by the node loop with its `for`-`else`. */
  method ResolveTarget(word: string, nodes: seq<string>) returns (r: Option<string>)
    ensures r == TargetOf(word, nodes)
  {
    if EndsWith(word, "_box") || EndsWith(word, "_lid_box") {
      return Some(word);
    }
    if !Contains(word, "drawer") {
      return None;
    }
    var found := FindNode(nodes, word);
    var named := if found.Some? then RemoveStates(found.value) else [];
    if named != [] {
      r := Some(named);
    } else {
      r := Some(InCabinet(word));
    }
  }

  /** The node loop, breaking at the first node naming the word. */
  method FindNode(nodes: seq<string>, word: string) returns (r: Option<string>)
    ensures r == NodeNaming(nodes, word)
  {
    var i := 0;
    while i < |nodes|
      invariant 0 <= i <= |nodes|
      invariant NodeNaming(nodes, word) == NodeNaming(nodes[i..], word)
    {
      var l := Lower(nodes[i]);
      if Contains(l, word) || EndsWith(l, word) {
        return Some(nodes[i]);
      }
      assert nodes[i..][1..] == nodes[i + 1..];
      i := i + 1;
    }
    return None;
  }

  /** The edge loop, breaking at the first edge that places the node; `table` after the loop. */
  method LocateNode(edges: seq<string>, node: string) returns (loc: string)
    ensures loc == CurrentLocation(edges, node)
  {
    var i := 0;
    while i < |edges|
      invariant 0 <= i <= |edges|
      invariant CurrentLocation(edges, node) == CurrentLocation(edges[i..], node)
    {
      var m := EdgeLocation(edges[i], node);
      if m.Some? {
        return m.value;
      }
      assert edges[i..][1..] == edges[i + 1..];
      i := i + 1;
    }
    return "table";
  }

  /** The node loops of A-types 1 and 2. */
  method ListItems(g: Graph, sel: Selection) returns (items: seq<string>)
    ensures items == Listed(g, sel)
  {
    items := [];
    if !sel.Coloured? && !sel.OfKind? {
      return;
    }
    var i := 0;
    while i < |g.nodes|
      invariant 0 <= i <= |g.nodes|
      invariant sel.Coloured? ==> items == ColourJudges.ColourFilter(g.nodes[..i], sel.colour, sel.kind)
      invariant sel.OfKind? ==> items == KindFilter(g.nodes[..i], sel.kind)
    {
      assert g.nodes[..i + 1][..i] == g.nodes[..i];
      var n := g.nodes[i];
      if sel.Coloured? && ColourJudges.IsColourObject(n, sel.colour, sel.kind) {
        items := items + [n];
      } else if sel.OfKind? && OfKindNode(n, sel.kind) {
        items := items + [n];
      }
      i := i + 1;
    }
    assert g.nodes[..|g.nodes|] == g.nodes;
  }

  /** Step 3 over a list: the items found at the target. */
  method CountPlaced(edges: seq<string>, items: seq<string>, target: string) returns (n: nat)
    ensures n == CountAt(edges, items, target)
  {
    n := 0;
    var i := 0;
    while i < |items|
      invariant 0 <= i <= |items|
      invariant n == CountAt(edges, items[..i], target)
    {
      assert items[..i + 1][..i] == items[..i];
      var loc := LocateNode(edges, items[i]);
      if loc == target {
        n := n + 1;
      }
      i := i + 1;
    }
    assert items[..|items|] == items;
  }

  /** The two edge loops of A-type 3: the items left on the table, then those moved to `temp`. */
  method CollectTableItems(edges: seq<string>, temp: string) returns (items: set<string>)
    ensures items == TableItems(edges, temp)
  {
    items := CollectLeftOnTable(edges);
    if temp != [] {
      var moved := CollectMovedTo(edges, temp);
      items := items + moved;
    }
  }

  /** The edge loop over `(\w+)\((on)\)table`. */
  method CollectLeftOnTable(edges: seq<string>) returns (items: set<string>)
    ensures items == LeftOnTable(edges)
  {
    items := {};
    var i := 0;
    while i < |edges|
      invariant 0 <= i <= |edges|
      invariant items == LeftOnTable(edges[..i])
    {
      assert edges[..i + 1] == edges[..i] + [edges[i]];
      GatherSnoc(edges[..i], edges[i], TableItem);
      var m := TableItem(edges[i]);
      if m.Some? {
        items := items + {m.value};
      }
      i := i + 1;
    }
    assert edges[..|edges|] == edges;
  }

  /** The edge loop collecting the items found at `temp`. */
  method CollectMovedTo(edges: seq<string>, temp: string) returns (moved: set<string>)
    ensures moved == MovedTo(edges, temp)
  {
    moved := {};
    var i := 0;
    while i < |edges|
      invariant 0 <= i <= |edges|
      invariant moved == MovedTo(edges[..i], temp)
    {
      assert edges[..i + 1] == edges[..i] + [edges[i]];
      GatherSnoc(edges[..i], edges[i], e => MovedItem(e, temp));
      var m := MovedItem(edges[i], temp);
      if m.Some? {
        moved := moved + {m.value};
      }
      i := i + 1;
    }
    assert edges[..|edges|] == edges;
  }

  /** Step 3 over a set, in whatever order the set yields its items. */
  method CountSetAt(edges: seq<string>, items: set<string>, target: string) returns (n: nat)
    ensures n == |AtTarget(edges, items, target)|
  {
    n := 0;
    var rest := items;
    ghost var done: set<string> := {};
    while rest != {}
      invariant rest <= items && done == items - rest
      invariant n == |AtTarget(edges, done, target)|
      decreases |rest|
    {
      var x :| x in rest;
      var loc := LocateNode(edges, x);
      if loc == target {
        assert AtTarget(edges, done + {x}, target) == AtTarget(edges, done, target) + {x};
        n := n + 1;
      } else {
        assert AtTarget(edges, done + {x}, target) == AtTarget(edges, done, target);
      }
      rest := rest - {x};
      done := done + {x};
    }
    assert done == items;
  }
}
