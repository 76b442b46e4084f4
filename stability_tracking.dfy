// The scene graph manager: it receives scene graphs from the simulator,
// converts text forms to the dictionary form, counts parse outcomes and,
// while an action is running, tracks how many identical frames arrived in a
// row so that the agent can tell when the scene has settled.
module StabilityTracking {
  import opened Text

  /** A node of a converted graph: a name, or an integer id from the legacy text form. */
  datatype Node = Named(name: string) | Numbered(id: nat)

  /**
   * A scene graph dictionary. `keys` are the dictionary's keys (an empty
   * dictionary is falsy), `nodes` and `edges` its two lists, and `others` the
   * values of its remaining keys, such as the `timestamp` of a simulator
   * frame, each given by its JSON text. For well-formed documents `==` is
   * dictionary equality (`DocEquality`).
   */
  datatype SceneDoc = SceneDoc(keys: set<string>, nodes: seq<Node>, edges: seq<string>, others: map<string, string>)

  /** The fields stand for exactly the dictionary's keys: an absent list is empty, and `others` has the remaining keys. */
  predicate WellFormed(d: SceneDoc)
  {
    ("nodes" !in d.keys ==> d.nodes == []) && ("edges" !in d.keys ==> d.edges == []) &&
    d.others.Keys == d.keys - {"nodes", "edges"}
  }

  /**
   * Two well-formed documents are equal exactly when they have the same keys
   * and the same value under each key.
   */
  lemma DocEquality(d1: SceneDoc, d2: SceneDoc)
    requires WellFormed(d1) && WellFormed(d2)
    ensures d1 == d2 <==>
      d1.keys == d2.keys &&
      ("nodes" in d1.keys ==> d1.nodes == d2.nodes) && ("edges" in d1.keys ==> d1.edges == d2.edges) &&
      (forall k :: k in d1.others ==> d1.others[k] == d2.others[k])
  {
    if d1.keys == d2.keys &&
       ("nodes" in d1.keys ==> d1.nodes == d2.nodes) && ("edges" in d1.keys ==> d1.edges == d2.edges) &&
       (forall k :: k in d1.others ==> d1.others[k] == d2.others[k]) {
      assert d1.others == d2.others;
    }
  }

  const EmptyDoc := SceneDoc({}, [], [], map[])

  predicate Truthy(d: SceneDoc) { d.keys != {} }

  /** What the JSON decoder made of a text (decoding itself is not modelled). */
  datatype Decoded = NotJson | Json(doc: SceneDoc)

  /** What a frame from the simulator carries. */
  datatype RawInput = Text(text: string, decoded: Decoded) | Dict(doc: SceneDoc) | Other

  // ----- text conversion -----

  predicate IsNodeListChar(c: char) { IsDigit(c) || c == ',' || IsSpace(c) }
  predicate IsNotDollar(c: char) { c != '$' }

  /**
   * The regex search `MARKER\s*(CLASS+)` followed by strip() of the group: the
   * earliest occurrence of the marker at or after `from` that is followed by at
   * least one character of the class, with the stripped run of such characters.
   */
  function MarkedRunFrom(s: string, marker: string, p: char -> bool, from: nat): (r: Option<string>)
    requires marker != []
    ensures r.None? <==> forall i: nat :: from <= i && OccursAt(s, marker, i) ==> Run(s[i + |marker|..], p) == 0
    decreases |s| - from
  {
    if from + |marker| > |s| then None
    else if OccursAt(s, marker, from) && Run(s[from + |marker|..], p) > 0 then
      var rest := s[from + |marker|..];
      Some(Strip(rest[..Run(rest, p)]))
    else MarkedRunFrom(s, marker, p, from + 1)
  }

  /** The integer ids of the all-digit comma parts, in order. */
  function DigitParts(parts: seq<string>): (r: seq<Node>)
    ensures |r| <= |parts|
    ensures forall i :: 0 <= i < |r| ==> r[i].Numbered?
  {
    if parts == [] then []
    else
      var p := Strip(parts[0]);
      (if IsDigits(p) then [Numbered(DigitsValue(p))] else []) + DigitParts(parts[1..])
  }

  /** The legacy form "Nodes: 0, 1, 3 ... Edges: 0>3, 0=F". */
  function ConvertLegacyText(text: string): (r: Option<SceneDoc>)
    ensures r.Some? ==> r.value.keys == {"nodes", "edges"} && WellFormed(r.value)
  {
    match MarkedRunFrom(text, "Nodes:", IsNodeListChar, 0)
    case None => None
    case Some(nodeList) =>
      var nodes := if nodeList == [] then [] else DigitParts(Split(nodeList, ","));
      var edges :=
        match MarkedRunFrom(text, "Edges:", IsNotDollar, 0)
        case None => []
        case Some(edgeList) => if edgeList == [] then [] else StrippedNonEmpty(Split(edgeList, ","));
      Some(SceneDoc({"nodes", "edges"}, nodes, edges, map[]))
  }

  /** Text that is not JSON: the legacy form when both markers appear, otherwise an empty graph. */
  function ConvertTextToJson(text: string): (r: Option<SceneDoc>)
    ensures !(Contains(text, "Nodes:") && Contains(text, "Edges:")) ==> r == Some(SceneDoc({"nodes", "edges"}, [], [], map[]))
    ensures Contains(text, "Nodes:") && Contains(text, "Edges:") ==> r == ConvertLegacyText(text)
  {
    if Contains(text, "Nodes:") && Contains(text, "Edges:") then ConvertLegacyText(text)
    else Some(SceneDoc({"nodes", "edges"}, [], [], map[]))
  }

  /** Blank text gives nothing, JSON is taken as decoded, anything else goes to the text converter. */
  function ParseAndConvert(text: string, decoded: Decoded): (r: Option<SceneDoc>)
    ensures Strip(text) == [] ==> r.None?
    ensures Strip(text) != [] && decoded.Json? ==> r == Some(decoded.doc)
    ensures Strip(text) != [] && decoded.NotJson? ==> r == ConvertTextToJson(text)
  {
    if Strip(text) == [] then None
    else match decoded
      case Json(doc) => Some(doc)
      case NotJson => ConvertTextToJson(text)
  }

  /** The legacy edge list keeps each non-empty stripped comma part, in order. */
  lemma {:induction false} StrippedNonEmptyKeepsOrder(parts: seq<string>, i: nat)
    requires i < |parts| && Strip(parts[i]) != []
    requires forall j :: 0 <= j < i ==> Strip(parts[j]) == []
    ensures StrippedNonEmpty(parts) != [] && StrippedNonEmpty(parts)[0] == Strip(parts[i])
    decreases i
  {
    if i > 0 { StrippedNonEmptyKeepsOrder(parts[1..], i - 1); }
  }

  /** A digit part written by str() of a number comes back as that number. */
  lemma DigitPartsOfNumber(n: nat, rest: seq<string>)
    ensures DigitParts([NatToString(n)] + rest) == [Numbered(n)] + DigitParts(rest)
  {
    var ps := [NatToString(n)] + rest;
    NatToStringStripped(n);
    NatToStringRoundTrip(n);
    assert ps[1..] == rest;
  }

  // ----- the manager -----

  /** The stability bookkeeping after one more frame, as a function of the old state. */
  function StabilityStep(history: seq<SceneDoc>, count: nat, maxHistory: int, g: SceneDoc): (r: (seq<SceneDoc>, nat))
  {
    if history == [] then ([g], 1)
    else if history[|history| - 1] == g then
      (if |history| < maxHistory then history + [g] else history, count + 1)
    else ([g], 1)
  }

  /** The invariant every stability step keeps. */
  ghost predicate StableHistory(history: seq<SceneDoc>, count: nat, maxHistory: int)
  {
    (forall i :: 0 <= i < |history| ==> history[i] == history[0]) &&
    |history| <= (if maxHistory < 1 then 1 else maxHistory) &&
    count >= |history| &&
    (history == [] <==> count == 0)
  }

  /**
   * After a step the history is non-empty and holds only the new frame, stays
   * within its bound, and the count is at least its length; a repeat of the
   * last frame counts one more, a different frame starts over.
   */
  lemma StabilityStepKeeps(history: seq<SceneDoc>, count: nat, maxHistory: int, g: SceneDoc)
    requires StableHistory(history, count, maxHistory)
    ensures var (h, c) := StabilityStep(history, count, maxHistory, g);
      StableHistory(h, c, maxHistory) && h != [] &&
      (forall i :: 0 <= i < |h| ==> h[i] == g) &&
      (history != [] && history[|history| - 1] == g ==> c == count + 1) &&
      (history == [] || history[|history| - 1] != g ==> h == [g] && c == 1)
  {
    var (h, c) := StabilityStep(history, count, maxHistory, g);
    if history != [] && history[|history| - 1] == g {
      assert history[0] == g;
    }
  }

  /** The state after a run of frames. */
  function StabilityRun(history: seq<SceneDoc>, count: nat, maxHistory: int, frames: seq<SceneDoc>): (seq<SceneDoc>, nat)
    decreases |frames|
  {
    if frames == [] then (history, count)
    else
      var (h, c) := StabilityStep(history, count, maxHistory, frames[0]);
      StabilityRun(h, c, maxHistory, frames[1..])
  }

  /** Once the history holds only copies of a frame, n more copies add n to the count and grow the history up to its bound. */
  lemma {:induction false} IdenticalFramesCount(history: seq<SceneDoc>, count: nat, maxHistory: int, g: SceneDoc, n: nat)
    requires history != [] && (forall i :: 0 <= i < |history| ==> history[i] == g)
    requires |history| <= count
    ensures var (h, c) := StabilityRun(history, count, maxHistory, seq(n, _ => g));
      c == count + n && (forall i :: 0 <= i < |h| ==> h[i] == g) &&
      |h| == (if |history| >= maxHistory then |history|
              else if |history| + n <= maxHistory then |history| + n else maxHistory)
    decreases n
  {
    var frames := seq(n, _ => g);
    if n > 0 {
      var (h1, c1) := StabilityStep(history, count, maxHistory, g);
      assert frames[0] == g;
      assert frames[1..] == seq(n - 1, _ => g);
      IdenticalFramesCount(h1, c1, maxHistory, g, n - 1);
    }
  }

  /**
   * Frames each unlike the one before never build up a count: after any run of
   * them the history is the last frame alone and the count is 1. Simulator
   * frames that carry their own `timestamp` are such a run.
   */
  lemma {:induction false} DistinctFramesStayAtOne(history: seq<SceneDoc>, count: nat, maxHistory: int, frames: seq<SceneDoc>)
    requires frames != []
    requires history == [] || history[|history| - 1] != frames[0]
    requires forall i :: 0 < i < |frames| ==> frames[i] != frames[i - 1]
    ensures StabilityRun(history, count, maxHistory, frames) == ([frames[|frames| - 1]], 1)
    decreases |frames|
  {
    var (h, c) := StabilityStep(history, count, maxHistory, frames[0]);
    assert (h, c) == ([frames[0]], 1);
    if |frames| > 1 {
      var rest := frames[1..];
      assert rest[0] == frames[1];
      assert forall i :: 0 < i < |rest| ==> rest[i] == frames[i + 1] && rest[i - 1] == frames[i];
      DistinctFramesStayAtOne(h, c, maxHistory, rest);
      assert rest[|rest| - 1] == frames[|frames| - 1];
    }
  }

  /**
   * Two frames alike but for their `timestamp` are different frames: while
   * waiting, the second restarts the count at 1.
   */
  lemma TimestampedFramesRestart(nodes: seq<Node>, edges: seq<string>, t1: string, t2: string, count: nat, maxHistory: int)
    requires t1 != t2
    ensures var d1 := SceneDoc({"nodes", "edges", "timestamp"}, nodes, edges, map["timestamp" := t1]);
      var d2 := SceneDoc({"nodes", "edges", "timestamp"}, nodes, edges, map["timestamp" := t2]);
      WellFormed(d1) && WellFormed(d2) && StabilityStep([d1], count, maxHistory, d2) == ([d2], 1)
  {
    var d1 := SceneDoc({"nodes", "edges", "timestamp"}, nodes, edges, map["timestamp" := t1]);
    var d2 := SceneDoc({"nodes", "edges", "timestamp"}, nodes, edges, map["timestamp" := t2]);
    assert d1.others["timestamp"] != d2.others["timestamp"];
  }

  /** What the status query reports. */
  datatype UpdateStatus = UpdateStatus(
    isWaiting: bool, isStable: bool, hasRealChange: bool,
    stableSceneGraph: Option<SceneDoc>, stableFrameCount: nat, requiredFrames: nat)

  /** What the latest-graph query reports. */
  datatype LatestGraph = NotAvailableYet | CurrentGraph(doc: SceneDoc)

  class SceneGraphManager {
    var currentSceneGraph: SceneDoc
    var rawMsg: Option<string>
    var sceneGraphHistory: seq<SceneDoc>
    var stableFrameCount: nat
    var lastSceneGraph: SceneDoc
    var waitingForUpdate: bool
    var stableFrameThreshold: nat
    var maxHistorySize: int
    var parseSuccessCount: nat
    var parseErrorCount: nat

    ghost predicate Valid()
      reads this
    {
      StableHistory(sceneGraphHistory, stableFrameCount, maxHistorySize)
    }

    /** A manager with the configured threshold and history bound (5 and 5 by default). */
    constructor (threshold: nat, maxHistory: int)
      ensures Valid()
      ensures currentSceneGraph == EmptyDoc && rawMsg == None
      ensures sceneGraphHistory == [] && stableFrameCount == 0 && lastSceneGraph == EmptyDoc && !waitingForUpdate
      ensures stableFrameThreshold == threshold && maxHistorySize == maxHistory
      ensures parseSuccessCount == 0 && parseErrorCount == 0
    {
      currentSceneGraph := EmptyDoc;
      rawMsg := None;
      sceneGraphHistory := [];
      stableFrameCount := 0;
      lastSceneGraph := EmptyDoc;
      waitingForUpdate := false;
      stableFrameThreshold := threshold;
      maxHistorySize := maxHistory;
      parseSuccessCount := 0;
      parseErrorCount := 0;
    }

    /** One more frame while waiting. */
    method CheckStability(g: SceneDoc)
      requires Valid()
      modifies this
      ensures Valid()
      ensures (sceneGraphHistory, stableFrameCount) ==
        StabilityStep(old(sceneGraphHistory), old(stableFrameCount), maxHistorySize, g)
      ensures sceneGraphHistory != [] && forall i :: 0 <= i < |sceneGraphHistory| ==> sceneGraphHistory[i] == g
      ensures currentSceneGraph == old(currentSceneGraph) && rawMsg == old(rawMsg)
      ensures lastSceneGraph == old(lastSceneGraph) && waitingForUpdate == old(waitingForUpdate)
      ensures stableFrameThreshold == old(stableFrameThreshold) && maxHistorySize == old(maxHistorySize)
      ensures parseSuccessCount == old(parseSuccessCount) && parseErrorCount == old(parseErrorCount)
    {
      StabilityStepKeeps(sceneGraphHistory, stableFrameCount, maxHistorySize, g);
      if |sceneGraphHistory| == 0 {
        sceneGraphHistory := [g];
        stableFrameCount := 1;
      } else if sceneGraphHistory[|sceneGraphHistory| - 1] == g {
        stableFrameCount := stableFrameCount + 1;
        if |sceneGraphHistory| < maxHistorySize {
          sceneGraphHistory := sceneGraphHistory + [g];
        }
      } else {
        stableFrameCount := 1;
        sceneGraphHistory := [g];
      }
    }

    /** A frame from the simulator. */
    method UpdateSceneGraph(raw: RawInput, msg: Option<string>)
      requires Valid()
      modifies this
      ensures Valid()
      ensures stableFrameThreshold == old(stableFrameThreshold) && maxHistorySize == old(maxHistorySize)
      ensures lastSceneGraph == old(lastSceneGraph) && waitingForUpdate == old(waitingForUpdate)
      ensures raw.Other? ==>
        currentSceneGraph == old(currentSceneGraph) && rawMsg == old(rawMsg) &&
        parseSuccessCount == old(parseSuccessCount) && parseErrorCount == old(parseErrorCount) &&
        sceneGraphHistory == old(sceneGraphHistory) && stableFrameCount == old(stableFrameCount)
      ensures !raw.Other? ==>
        var parsed := if raw.Text? then ParseAndConvert(raw.text, raw.decoded) else Some(raw.doc);
        if parsed.Some? && Truthy(parsed.value) then
          currentSceneGraph == parsed.value && rawMsg == msg &&
          parseSuccessCount == old(parseSuccessCount) + 1 && parseErrorCount == old(parseErrorCount) &&
          (sceneGraphHistory, stableFrameCount) ==
            (if old(waitingForUpdate)
             then StabilityStep(old(sceneGraphHistory), old(stableFrameCount), maxHistorySize, parsed.value)
             else (old(sceneGraphHistory), old(stableFrameCount)))
        else
          currentSceneGraph == old(currentSceneGraph) && rawMsg == old(rawMsg) &&
          parseSuccessCount == old(parseSuccessCount) && parseErrorCount == old(parseErrorCount) + 1 &&
          sceneGraphHistory == old(sceneGraphHistory) && stableFrameCount == old(stableFrameCount)
    {
      var parsed: Option<SceneDoc>;
      match raw {
        case Text(text, decoded) => parsed := ParseAndConvert(text, decoded);
        case Dict(doc) => parsed := Some(doc);
        case Other => return;
      }
      if parsed.Some? && Truthy(parsed.value) {
        rawMsg := msg;
        currentSceneGraph := parsed.value;
        parseSuccessCount := parseSuccessCount + 1;
        if waitingForUpdate {
          CheckStability(parsed.value);
        }
      } else {
        parseErrorCount := parseErrorCount + 1;
      }
    }

    /** Whether the scene has settled, and whether it settled on something new. */
    function CheckUpdateStatus(): (r: UpdateStatus)
      reads this
      ensures !waitingForUpdate ==> !r.isWaiting && !r.isStable && !r.hasRealChange && r.stableSceneGraph.None?
      ensures waitingForUpdate ==> r.isWaiting && (r.isStable <==> stableFrameCount >= stableFrameThreshold)
      ensures r.hasRealChange <==>
        waitingForUpdate && stableFrameCount >= stableFrameThreshold && sceneGraphHistory != [] &&
        sceneGraphHistory[0] != lastSceneGraph
      ensures r.stableSceneGraph.Some? ==> r.isStable && sceneGraphHistory != [] && r.stableSceneGraph.value == sceneGraphHistory[0]
    {
      if !waitingForUpdate then UpdateStatus(false, false, false, None, 0, 0)
      else
        var stable := stableFrameCount >= stableFrameThreshold;
        if stable && sceneGraphHistory != [] then
          UpdateStatus(true, true, sceneGraphHistory[0] != lastSceneGraph, Some(sceneGraphHistory[0]), stableFrameCount, stableFrameThreshold)
        else
          UpdateStatus(true, stable, false, None, stableFrameCount, stableFrameThreshold)
    }

    method StartWaitingForUpdate(reference: SceneDoc)
      requires Valid()
      modifies this
      ensures Valid()
      ensures waitingForUpdate && stableFrameCount == 0 && sceneGraphHistory == [] && lastSceneGraph == reference
      ensures currentSceneGraph == old(currentSceneGraph) && rawMsg == old(rawMsg)
      ensures stableFrameThreshold == old(stableFrameThreshold) && maxHistorySize == old(maxHistorySize)
      ensures parseSuccessCount == old(parseSuccessCount) && parseErrorCount == old(parseErrorCount)
    {
      waitingForUpdate := true;
      stableFrameCount := 0;
      sceneGraphHistory := [];
      lastSceneGraph := reference;
    }

    method StopWaitingForUpdate()
      requires Valid()
      modifies this
      ensures Valid()
      ensures !waitingForUpdate && stableFrameCount == 0 && sceneGraphHistory == [] && lastSceneGraph == EmptyDoc
      ensures currentSceneGraph == old(currentSceneGraph) && rawMsg == old(rawMsg)
      ensures stableFrameThreshold == old(stableFrameThreshold) && maxHistorySize == old(maxHistorySize)
      ensures parseSuccessCount == old(parseSuccessCount) && parseErrorCount == old(parseErrorCount)
    {
      waitingForUpdate := false;
      stableFrameCount := 0;
      sceneGraphHistory := [];
      lastSceneGraph := EmptyDoc;
    }

    method ResetStabilityTracking()
      requires Valid()
      modifies this
      ensures Valid()
      ensures !waitingForUpdate && stableFrameCount == 0 && sceneGraphHistory == [] && lastSceneGraph == EmptyDoc
      ensures currentSceneGraph == old(currentSceneGraph) && rawMsg == old(rawMsg)
      ensures stableFrameThreshold == old(stableFrameThreshold) && maxHistorySize == old(maxHistorySize)
      ensures parseSuccessCount == old(parseSuccessCount) && parseErrorCount == old(parseErrorCount)
    {
      sceneGraphHistory := [];
      stableFrameCount := 0;
      lastSceneGraph := EmptyDoc;
      waitingForUpdate := false;
    }

    /** The latest graph, or the not-available message when the current graph is empty. */
    function GetLatestSceneGraph(): (r: LatestGraph)
      reads this
      ensures r == NotAvailableYet <==> !Truthy(currentSceneGraph)
      ensures r.CurrentGraph? ==> r.doc == currentSceneGraph
    {
      if !Truthy(currentSceneGraph) then NotAvailableYet else CurrentGraph(currentSceneGraph)
    }

    /** The last raw message together with the current graph. */
    function GetCurrentRawMsg(): (r: (Option<string>, SceneDoc))
      reads this
      ensures r.0 == rawMsg && r.1 == currentSceneGraph
    {
      (rawMsg, currentSceneGraph)
    }
  }

  /** While waiting, once `threshold` identical frames arrive in a row the status reports the scene stable on that frame. */
  lemma SettledAfterThreshold(history: seq<SceneDoc>, count: nat, maxHistory: int, g: SceneDoc, n: nat, threshold: nat)
    requires history != [] && (forall i :: 0 <= i < |history| ==> history[i] == g) && |history| <= count
    requires count + n >= threshold
    ensures var (h, c) := StabilityRun(history, count, maxHistory, seq(n, _ => g));
      c >= threshold && h != [] && h[0] == g
  {
    IdenticalFramesCount(history, count, maxHistory, g, n);
  }
}
