// The report processor's dispatch and logging
// (report_analysis/Auto_extract_report_data_batch.py): which judge a goal is
// routed to, how an exception inside a judge becomes a failed judgement, and
// the log line `create_log_entry` writes for each report.
module ReportDispatch {
  import opened Text
  import opened SceneAnalysis
  import opened ReportScene
  import opened ReportGoals
  import LayerJudge
  import ColourJudges
  import ColourDrawers
  import DrawerItems
  import MoveJudge
  import SuccessRate

  // ----- routing -----

  /** The judges `judge_task_success_with_error` can call. */
  datatype Route = NoGoalGiven | Layers | ByColourDrawers | CorrespondingBoxes | DifferentDrawers | MoveInto

  /** Cubes, mugs, drawers and layers, and none of the named everyday items: the six-object layer task. */
  predicate LayerGoal(l: string)
  {
    Contains(l, "cube") && Contains(l, "mug") && Contains(l, "drawer") &&
    (Contains(l, "layer") || Contains(l, "level") || Contains(l, "different")) &&
    !Contains(l, "milk") && !Contains(l, "popcorn") && !Contains(l, "book") &&
    !Contains(l, "apple") && !Contains(l, "orange") && !Contains(l, "banana")
  }

  /** `cube_count + mug_count`: the nodes naming `_cube`, plus the nodes naming `mug`, as written. */
  function CubeMugCount(nodes: seq<string>): (n: nat)
    ensures n <= 2 * |nodes|
  {
    if nodes == [] then 0
    else
      var last := nodes[|nodes| - 1];
      CubeMugCount(nodes[..|nodes| - 1]) + (if Contains(last, "_cube") then 1 else 0) + (if Contains(last, "mug") then 1 else 0)
  }

  /** The layer task, when the scene holds four to eight cubes and mugs. */
  predicate LayerRoute(g: Graph, l: string)
  {
    LayerGoal(l) && 4 <= CubeMugCount(g.nodes) <= 8
  }

  /**
   * The route: the layer task first, then the three type-2 goals by their
   * phrases, and type 1 for everything else. The type-2 fallback judge is
   * never reached (`TypeTwoAlwaysRouted`), so it has no route.
   */
  function RouteOf(g: Graph, goal: string): Route
  {
    if goal == [] then NoGoalGiven
    else
      var l := Lower(goal);
      var two := ClassifyTaskType(goal) == 2;
      if LayerRoute(g, l) then Layers
      else if two && Contains(l, "by color") && Contains(l, "drawer") then ByColourDrawers
      else if two && (Contains(l, "corresponding") || Contains(l, "corresponding colored boxes")) then CorrespondingBoxes
      else if two && Contains(l, "different drawer") then DifferentDrawers
      else MoveInto
  }

  /** The judgement of the routed judge; `None` where that judge raises. */
  function Dispatch(g: Graph, goal: string): (r: Option<Judgement>)
    ensures r.Some? ==> Consistent(r.value)
  {
    match RouteOf(g, goal)
    case NoGoalGiven => Some(Judgement(false, Progress(Whole(0), 0, None), Some(NoGoal)))
    case Layers => Some(LayerJudge.ByLayers(g))
    case ByColourDrawers => ColourDrawers.ByColour(g)
    case CorrespondingBoxes => Some(ColourJudges.CorrespondingBoxes(g))
    case DifferentDrawers => Some(DrawerItems.DifferentDrawers(g, goal))
    case MoveInto => MoveJudge.MoveInto(g, goal)
  }

  /** The failed judgement an exception becomes: nothing counted, and the error recorded. */
  const Crashed := Judgement(false, Progress(Whole(0), 0, None), Some(JudgeCrashed))

  /** `judge_task_success_with_error`: the routed judgement, or `Crashed` where the judge raises. */
  function JudgeWithError(g: Graph, goal: string): (j: Judgement)
    ensures Consistent(j)
    ensures j.success ==> Dispatch(g, goal) == Some(j)
  {
    match Dispatch(g, goal)
    case Some(j) => j
    case None => Crashed
  }

  /** A type-2 goal always matches one of its three phrases: the fallback judge is never called. */
  lemma TypeTwoAlwaysRouted(g: Graph, goal: string)
    requires goal != [] && ClassifyTaskType(goal) == 2
    ensures RouteOf(g, goal) != MoveInto
  {
    ClassifyTypeTwo(goal);
    CorrespondingPhraseSubsumed(Lower(goal));
  }

  /** The type-1 judge gets exactly the type-1 goals that are not the layer task. */
  lemma MoveIntoRoute(g: Graph, goal: string)
    ensures RouteOf(g, goal) == MoveInto <==>
      goal != [] && !LayerRoute(g, Lower(goal)) && ClassifyTaskType(goal) == 1
  {
    if goal != [] && ClassifyTaskType(goal) == 2 {
      TypeTwoAlwaysRouted(g, goal);
    }
  }

  /**
   * The dispatcher's judge raises exactly for a by-colour goal over a scene
   * with an unplaced cube or mug, and for a type-1 goal with nothing after
   * its `into`/`in`.
   */
  lemma DispatchRaises(g: Graph, goal: string)
    ensures Dispatch(g, goal).None? <==>
      (RouteOf(g, goal) == ByColourDrawers && !ColourDrawers.AllLocated(g)) ||
      (RouteOf(g, goal) == MoveInto && MoveJudge.TargetWord(Lower(goal)).NoWord?)
  {
    MoveJudge.MoveIntoRaises(g, goal);
  }

  /** A failed judgement always carries its error: it is the routed judge's, or the crash. */
  lemma FailureCarriesError(g: Graph, goal: string)
    ensures !JudgeWithError(g, goal).success <==> JudgeWithError(g, goal).failure.Some?
    ensures JudgeWithError(g, goal) == Crashed <== Dispatch(g, goal).None?
  {
  }

  // ----- processing a report -----

  /** `process_report`: nothing without a scene graph, otherwise the judgement of the last one. */
  datatype Processed =
    | Skipped
    | Judged(judgement: Judgement, taskType: nat, configNumber: string, failReason: string)

  /**
   * A report's goal, user input, fail reason and scene graphs as read from
   * its text (reading them is not part of this model).
   */
  function ProcessReport(goal: string, userInput: string, failReason: string, graphs: seq<Graph>): (p: Processed)
    ensures p.Skipped? <==> graphs == []
    ensures p.Judged? ==> Consistent(p.judgement) && (p.taskType == 1 || p.taskType == 2)
  {
    if graphs == [] then Skipped
    else Judged(JudgeWithError(graphs[|graphs| - 1], goal), ClassifyTaskType(goal), ExtractConfigNumber(userInput), failReason)
  }

  // ----- the log entry -----

  /** The arguments of a `create_log_entry` call. */
  datatype LogCall = LogCall(filename: string, success: bool, outputPath: string, ruleError: string,
                             ruleResponse: string, progress: Option<Progress>, taskType: nat,
                             configNumber: string, failReason: string)

  /** The items joined with ", ", as `', '.join` writes them. */
  function CommaJoined(items: seq<string>): string
  {
    if items == [] then ""
    else if |items| == 1 then items[0]
    else items[0] + ", " + CommaJoined(items[1..])
  }

  /**
   * The error message a failing judge returns, up to its variable detail: the
   * per-layer details, the list of issues or misplaced items, and the text
   * of a caught exception are not spelt out. Each starts with fixed text, so
   * none is empty.
   */
  function ErrorText(f: Failure): (t: string)
    ensures t != []
  {
    match f
    case NoGoal => "No task goal provided"
    case TargetUnclear => "Could not determine target location from task goal"
    case JudgeCrashed => "Error in rule-based judgment: "
    case LayersShort(score) => "Score: " + NatToString(score) + "/6 - "
    case NoItemsNamed => "Could not extract target items from task goal"
    case TooFewDrawers(found) => "Expected multiple drawer layers, found " + NatToString(found)
    case UnrelatedInDrawers(items) => "Unrelated items in drawers: " + CommaJoined(items)
    case AllInOneDrawer(required) =>
      "All items placed in single drawer (expected " + NatToString(required) + " different drawers)"
    case DrawersIncomplete(tenths, required, _, _, _, _) =>
      "Task incomplete: " + ScoreText(Tenths(tenths)) + "/" + NatToString(required) + " items correctly placed"
    case BoxesIncomplete(correct, total) =>
      NatToString(correct) + "/" + NatToString(total) + " objects correctly placed in corresponding colored boxes"
    case ColoursIncomplete(detail) => "Progress: " + detail
    case TargetIncomplete(correct, total) =>
      "Task incomplete: " + NatToString(correct) + "/" + NatToString(total) + " objects correctly placed"
  }

  /** `rule_error`: empty on success, the failure's message otherwise. */
  function RuleError(j: Judgement): string
  {
    if j.failure.Some? then ErrorText(j.failure.value) else ""
  }

  /**
   * The batch loop's call for one report; `responseText` is the judge's
   * response message, whose wording is not modelled.
   */
  function CallFor(filename: string, outputPath: string, p: Processed, responseText: string): LogCall
  {
    match p
    case Skipped => LogCall(filename, false, "", "", "", None, 0, "", "")
    case Judged(j, t, c, f) =>
      var errorText := RuleError(j);
      if j.success && errorText == [] then LogCall(filename, true, outputPath, "", "", Some(j.progress), t, c, f)
      else if errorText != [] then LogCall(filename, false, "", errorText, responseText, Some(j.progress), t, c, f)
      else LogCall(filename, false, "", "", responseText, Some(j.progress), t, c, f)
  }

  /** `ERROR` when there is an error message, else `FAILED` when unsuccessful, else `SUCCESS`. */
  function StatusOf(c: LogCall): SuccessRate.Status
  {
    if c.ruleError != [] then SuccessRate.Error
    else if !c.success then SuccessRate.Failed
    else SuccessRate.Success
  }

  /**
   * The batch log never shows a processed report as `FAILED`: every failed
   * judgement has an error message, so it is logged as `ERROR`. `FAILED`
   * marks exactly the reports skipped for want of a scene graph.
   */
  lemma LoggedStatus(filename: string, outputPath: string, goal: string, userInput: string, failReason: string,
                     graphs: seq<Graph>, responseText: string)
    ensures var p := ProcessReport(goal, userInput, failReason, graphs);
      var s := StatusOf(CallFor(filename, outputPath, p, responseText));
      (s == SuccessRate.Failed <==> graphs == []) &&
      (s == SuccessRate.Success <==> p.Judged? && p.judgement.success) &&
      (s == SuccessRate.Error <==> p.Judged? && !p.judgement.success)
  {
  }

  function StatusName(s: SuccessRate.Status): string
  {
    match s
    case Success => "SUCCESS"
    case Error => "ERROR"
    case Failed => "FAILED"
  }

  /** A progress figure as Python prints it: an int, or a float with its one decimal. */
  function ScoreText(s: Score): (r: string)
    ensures r != []
  {
    match s
    case Whole(n) => NatToString(n)
    case Tenths(t) => NatToString(t / 10) + "." + NatToString(t % 10)
  }

  /** ` | Progress: ` with the detail, or `correct/total`, only when the total is positive. */
  function ProgressField(p: Option<Progress>): (r: string)
    ensures r == [] <==> p.None? || p.value.total == 0
    ensures r != [] ==> StartsWith(r, " | Progress: ")
  {
    if p.Some? && p.value.total > 0 then
      var d := p.value.detail;
      if d.Some? && d.value != [] then " | Progress: " + d.value
      else " | Progress: " + ScoreText(p.value.correct) + "/" + NatToString(p.value.total)
    else []
  }

  function TypeField(t: nat): string
  {
    if t > 0 then " | Type: " + NatToString(t) else ""
  }

  function FailReasonField(f: string): string
  {
    if f != [] then " | Fail_reason: " + f else ""
  }

  /** The line up to its status: the time, the configuration label and the file. */
  function Head(timestamp: string, c: LogCall): string
  {
    var prefix := if c.configNumber != [] then c.configNumber + " | " else "";
    "[" + timestamp + "] " + prefix + "File: " + c.filename + " | "
  }

  /** What follows the status, type and progress: the error and response, the response, or the output path. */
  function Outcome(c: LogCall): string
  {
    match StatusOf(c)
    case Error => " | Error: " + c.ruleError + " | Rule Response: " + c.ruleResponse
    case Failed => " | Response: " + c.ruleResponse
    case Success => " | Output: " + c.outputPath
  }

  /** `create_log_entry`: the sort key and the line; the time is a parameter. */
  function CreateLogEntry(timestamp: string, c: LogCall): (entry: (nat, string))
    ensures entry.0 == SortKey(c.configNumber)
    ensures StartsWith(entry.1, Head(timestamp, c) + "Status: " + StatusName(StatusOf(c)))
  {
    var status := "Status: " + StatusName(StatusOf(c));
    var rest := TypeField(c.taskType) + ProgressField(c.progress) + Outcome(c) + FailReasonField(c.failReason) + "\n";
    var line := Head(timestamp, c) + status + rest;
    assert line[..|Head(timestamp, c) + status|] == Head(timestamp, c) + status;
    (SortKey(c.configNumber), line)
  }

  /** The success-rate analyser reads back the status the entry was written with. */
  lemma StatusReadBack(timestamp: string, c: LogCall)
    ensures var line := CreateLogEntry(timestamp, c).1;
      SuccessRate.StatusAt(line[|Head(timestamp, c)|..]) == Some(StatusOf(c))
  {
    var line := CreateLogEntry(timestamp, c).1;
    var h := Head(timestamp, c);
    var name := StatusName(StatusOf(c));
    var t := line[|h|..];
    assert t[..|"Status: " + name|] == "Status: " + name;
    StatusWord(t, name);
  }

  /** `Status: ` and a status name at the head of a text. */
  lemma StatusWord(t: string, name: string)
    requires name == "SUCCESS" || name == "ERROR" || name == "FAILED"
    requires |"Status: " + name| <= |t| && t[..|"Status: " + name|] == "Status: " + name
    ensures SuccessRate.StatusAt(t) == Some(if name == "SUCCESS" then SuccessRate.Success
                                            else if name == "ERROR" then SuccessRate.Error
                                            else SuccessRate.Failed)
  {
    assert t[..7] == "Status:";
    assert t[7] == ' ' && !IsSpace(t[8]);
    assert Run(t[7..], IsSpace) == 1 by {
      assert Run(t[8..], IsSpace) == 0;
    }
    var rest := t[8..];
    forall i | 0 <= i < |name|
      ensures rest[i] == name[i]
    {
      assert rest[i] == t[..|"Status: " + name|][8 + i];
    }
    assert rest[..|name|] == name;
  }

  /** Two digit fields around a slash: their own strip, and split back into the two. */
  lemma TwoFields(x: string, y: string)
    requires IsDigits(x) && IsDigits(y)
    ensures Strip(x + "/" + y) == x + "/" + y
    ensures Split(x + "/" + y, "/") == [x, y]
  {
    var s := x + "/" + y;
    assert '/' !in x && '/' !in y by {
      assert forall i :: 0 <= i < |x| ==> IsDigit(x[i]);
      assert forall i :: 0 <= i < |y| ==> IsDigit(y[i]);
    }
    assert s[0] == x[0] && s[|s| - 1] == y[|y| - 1];
    StripNoop(s);
    SplitNoSep(y, '/');
    SplitOfJoin(x, '/', y);
  }

  /** A whole-number progress `correct/total` with a positive total parses back to the same pair. */
  lemma ProgressReadBack(n: nat, total: nat)
    requires total > 0
    ensures SuccessRate.ParseProgress(ScoreText(Whole(n)) + "/" + NatToString(total)) == Some((n as real, total as int))
  {
    var x := NatToString(n);
    var y := NatToString(total);
    var s := x + "/" + y;
    TwoFields(x, y);
    assert SuccessRate.ParseProgress(s) == SuccessRate.LeadingFraction(s);
    assert s == x + ['/'] + (y + []);
    SuccessRate.LeadingFractionOfDigits(x, y, []);
    NatToStringRoundTrip(n);
    NatToStringRoundTrip(total);
  }
}
