// The verdict the validate-and-execute tool reaches on one command against
// one scene graph, and the tool's own bookkeeping across calls.
module ActionValidation {
  import opened Text
  import opened ActionCommands
  import opened SceneAnalysis

  datatype Verdict =
    | ToggleOk(verb: Toggle, target: string, current: State, expected: State)
    | MoveOk(source: string, relation: Relation, target: string)
    | Rejected(reason: Rejection)

  function RelationText(r: Relation): string
  {
    match r
    case In => "in"
    case On => "on"
  }

  function ExpectedState(v: Toggle): State
  {
    match v
    case Open => Opened
    case Close => Closed
  }

  // ----- open / close -----

  /** What the open/close check learns about an object: unseen, or seen with or without a state. */
  datatype Lookup = NotFound | Found(state: Option<State>)

  function StateIn(s: string, name: string): Option<State>
  {
    if Contains(s, name + "(open)") then Some(Opened)
    else if Contains(s, name + "(closed)") then Some(Closed)
    else None
  }

  /** The first node that names the object, exactly or as "NAME(...)". */
  function NodeLookup(nodes: seq<string>, name: string): Lookup
  {
    if nodes == [] then NotFound
    else if nodes[0] == name then Found(None)
    else if StartsWith(nodes[0], name + "(") then
      Found(if Contains(nodes[0], "(open)") then Some(Opened)
            else if Contains(nodes[0], "(closed)") then Some(Closed)
            else None)
    else NodeLookup(nodes[1..], name)
  }

  /** The first edge that mentions the object at all. */
  function EdgeLookup(edges: seq<string>, name: string): Lookup
  {
    if edges == [] then NotFound
    else if Contains(edges[0], name) then Found(StateIn(edges[0], name))
    else EdgeLookup(edges[1..], name)
  }

  function ToggleLookup(g: Graph, name: string): Lookup
  {
    if NodeLookup(g.nodes, name).Found? then NodeLookup(g.nodes, name) else EdgeLookup(g.edges, name)
  }

  /** The open/close check: the object must be known, carry a state, and not already be in the requested one. */
  function ValidateToggle(g: Graph, verb: Toggle, name: string): (v: Verdict)
    ensures ToggleLookup(g, name).NotFound? ==> v == Rejected(ToggleTargetMissing(name))
    ensures ToggleLookup(g, name) == Found(None) ==> v == Rejected(NoToggleState(name))
    ensures v.ToggleOk? <==> ToggleLookup(g, name).Found? && ToggleLookup(g, name).state.Some?
                             && ToggleLookup(g, name).state.value != ExpectedState(verb)
    ensures v.ToggleOk? ==> v == ToggleOk(verb, name, ToggleLookup(g, name).state.value, ExpectedState(verb))
  {
    match ToggleLookup(g, name)
    case NotFound => Rejected(ToggleTargetMissing(name))
    case Found(None) => Rejected(NoToggleState(name))
    case Found(Some(s)) =>
      if verb == Open && s == Opened then Rejected(AlreadyOpen(name))
      else if verb == Close && s == Closed then Rejected(AlreadyClosed(name))
      else ToggleOk(verb, name, s, ExpectedState(verb))
  }

  /** An accepted open finds the object closed, an accepted close finds it open. */
  lemma AcceptedToggleFlips(g: Graph, verb: Toggle, name: string)
    requires ValidateToggle(g, verb, name).ToggleOk?
    ensures var v := ValidateToggle(g, verb, name);
      (verb == Open ==> v.current == Closed && v.expected == Opened) &&
      (verb == Close ==> v.current == Opened && v.expected == Closed)
  {
  }

  /** A node spelled exactly as the object means it is found without a state, whatever the edges say. */
  lemma {:induction false} BareNodeHasNoState(nodes: seq<string>, name: string, i: nat)
    requires i < |nodes| && nodes[i] == name
    requires forall j :: 0 <= j < i ==> nodes[j] != name && !StartsWith(nodes[j], name + "(")
    ensures NodeLookup(nodes, name) == Found(None)
    decreases i
  {
    if i > 0 { BareNodeHasNoState(nodes[1..], name, i - 1); }
  }

  // ----- move / put -----

  /** The outcome of every move check, each taken on its own. */
  datatype MoveChecks = MoveChecks(
    sourceKnown: bool, targetKnown: bool, toTable: bool, sourceIsCube: bool,
    cubeSource: Check, movable: Check, containers: bool, targetKind: Check,
    access: Check, placement: Check, tableFull: bool, completed: bool)

  function MoveChecksOf(g: Graph, source: string, relation: Relation, target: string): MoveChecks
  {
    var analysis := Analyze(g);
    MoveChecks(source in analysis.allObjects, target in analysis.allObjects, target == "table", IsCube(source),
               CubeSourceCheck(g, source), CanMoveObject(g, source), IsContainer(source) && IsContainer(target),
               TargetKindCheck(target), CanAccessTarget(g, target), CubePlacementCheck(g, source, target),
               analysis.tableStatus == "F", AlreadyCompleted(g, source, RelationText(relation), target))
  }

  /** The checks in the order the validator applies them; the first that fails gives the reason. */
  function Decide(source: string, relation: Relation, target: string, c: MoveChecks): Verdict
  {
    if !c.sourceKnown then Rejected(SourceMissing(source))
    else if !c.toTable && !c.targetKnown then Rejected(TargetMissing(target))
    else if c.sourceIsCube && c.cubeSource.Fail? then Rejected(c.cubeSource.reason)
    else if c.movable.Fail? then Rejected(c.movable.reason)
    else if !c.toTable && c.containers then Rejected(ContainerIntoContainer(source, target))
    else if !c.toTable && c.targetKind.Fail? then Rejected(c.targetKind.reason)
    else if !c.toTable && c.access.Fail? then Rejected(c.access.reason)
    else if !c.toTable && c.sourceIsCube && c.placement.Fail? then Rejected(c.placement.reason)
    else if c.toTable && c.tableFull then Rejected(TableFull)
    else if c.completed then Rejected(AlreadyDone(source, target))
    else MoveOk(source, relation, target)
  }

  /** Every check passes, whatever the order. */
  predicate AllPass(c: MoveChecks)
  {
    c.sourceKnown && (c.toTable || c.targetKnown) && (c.sourceIsCube ==> c.cubeSource.Pass?) && c.movable.Pass? &&
    (!c.toTable ==> !c.containers && c.targetKind.Pass? && c.access.Pass? && (c.sourceIsCube ==> c.placement.Pass?)) &&
    (c.toTable ==> !c.tableFull) && !c.completed
  }

  /** The ordered checks accept exactly when all of them pass, and then echo the request. */
  lemma DecideAcceptsIffAllPass(source: string, relation: Relation, target: string, c: MoveChecks)
    ensures Decide(source, relation, target, c).MoveOk? <==> AllPass(c)
    ensures Decide(source, relation, target, c).MoveOk? ==> Decide(source, relation, target, c) == MoveOk(source, relation, target)
    ensures !Decide(source, relation, target, c).MoveOk? ==> Decide(source, relation, target, c).Rejected?
  {
  }

  /** The move checks, in the order the validator applies them. */
  function ValidateMove(g: Graph, source: string, relation: Relation, target: string): Verdict
  {
    Decide(source, relation, target, MoveChecksOf(g, source, relation, target))
  }

  /** Every condition a feasible move needs, stated independently of the order of the checks. */
  predicate MoveFeasible(g: Graph, source: string, relation: Relation, target: string)
  {
    var analysis := Analyze(g);
    source in analysis.allObjects &&
    (target == "table" || target in analysis.allObjects) &&
    (IsCube(source) ==> CubeSourceCheck(g, source).Pass?) &&
    CanMoveObject(g, source).Pass? &&
    (target != "table" ==>
       !(IsContainer(source) && IsContainer(target)) &&
       !IsCube(target) && !IsMug(target) &&
       CanAccessTarget(g, target).Pass? &&
       (IsCube(source) ==> CubePlacementCheck(g, source, target).Pass?)) &&
    (target == "table" ==> analysis.tableStatus != "F") &&
    !AlreadyCompleted(g, source, RelationText(relation), target)
  }

  /** A move is accepted exactly when it is feasible, and then the verdict echoes the request. */
  lemma MoveAcceptedIffFeasible(g: Graph, source: string, relation: Relation, target: string)
    ensures ValidateMove(g, source, relation, target).MoveOk? <==> MoveFeasible(g, source, relation, target)
    ensures ValidateMove(g, source, relation, target).MoveOk? ==>
      ValidateMove(g, source, relation, target) == MoveOk(source, relation, target)
  {
    var c := MoveChecksOf(g, source, relation, target);
    DecideAcceptsIffAllPass(source, relation, target, c);
    assert AllPass(c) <==> MoveFeasible(g, source, relation, target);
  }

  /** The rejection rules for moves, one per ensures. */
  lemma MoveRejections(g: Graph, source: string, relation: Relation, target: string)
    ensures target != "table" && IsContainer(source) && IsContainer(target) ==> ValidateMove(g, source, relation, target).Rejected?
    ensures target != "table" && (IsCube(target) || IsMug(target)) ==> ValidateMove(g, source, relation, target).Rejected?
    ensures target == "table" && Analyze(g).tableStatus == "F" ==> ValidateMove(g, source, relation, target).Rejected?
    ensures source + "(" + RelationText(relation) + ")" + target in g.edges ==> ValidateMove(g, source, relation, target).Rejected?
    ensures target == "table" && source + "(on)table" in g.edges ==> ValidateMove(g, source, relation, target).Rejected?
    ensures source == "table" ==> ValidateMove(g, source, relation, target) == Rejected(SourceMissing("table"))
  {
    var c := MoveChecksOf(g, source, relation, target);
    DecideAcceptsIffAllPass(source, relation, target, c);
    assert c.targetKind == TargetKindCheck(target);
    TableIsNeverAnObject(g);
  }

  /** The verdict on a parse result. */
  function ValidateParsed(parsed: Option<ParsedAction>, g: Graph): (v: Verdict)
    ensures parsed.None? ==> v == Rejected(Unparseable)
  {
    match parsed
    case None => Rejected(Unparseable)
    case Some(ToggleAction(verb, name)) => ValidateToggle(g, verb, name)
    case Some(MoveAction(source, relation, target)) => ValidateMove(g, source, relation, target)
  }

  /** The whole validation of one command against one scene graph. */
  function Validate(command: string, g: Graph): Verdict
  {
    ValidateParsed(ParseActionCommand(command), g)
  }

  /** An accepted verdict is exactly what was parsed, and an accepted move is feasible. */
  lemma AcceptedIsParsed(parsed: Option<ParsedAction>, g: Graph)
    ensures ValidateParsed(parsed, g).ToggleOk? ==>
      parsed == Some(ToggleAction(ValidateParsed(parsed, g).verb, ValidateParsed(parsed, g).target))
    ensures ValidateParsed(parsed, g).MoveOk? ==>
      var v := ValidateParsed(parsed, g);
      parsed == Some(MoveAction(v.source, v.relation, v.target)) &&
      MoveFeasible(g, v.source, v.relation, v.target)
  {
    match parsed
    case None =>
    case Some(ToggleAction(verb, name)) =>
    case Some(MoveAction(source, relation, target)) =>
      assert ValidateParsed(parsed, g) == ValidateMove(g, source, relation, target);
      MoveAcceptedIffFeasible(g, source, relation, target);
  }

  // ----- scene changes -----

  datatype SceneChange = SceneChange(added: set<string>, removed: set<string>, hasChanges: bool)

  function EdgeSet(g: Graph): set<string> { set e | e in g.edges }

  /** The edges gained and lost between two scene graphs. */
  function SceneChanges(initial: Graph, final: Graph): (c: SceneChange)
    ensures c.added * EdgeSet(initial) == {} && c.removed * EdgeSet(final) == {}
    ensures c.hasChanges <==> EdgeSet(initial) != EdgeSet(final)
  {
    var i := EdgeSet(initial);
    var f := EdgeSet(final);
    var c := SceneChange(f - i, i - f, |f - i| > 0 || |i - f| > 0);
    assert c.hasChanges <==> f - i != {} || i - f != {};
    assert f - i == {} && i - f == {} ==> f == i by {
      if f - i == {} && i - f == {} {
        assert forall e :: e in f <==> e in i;
      }
    }
    c
  }

  /** Applying the reported changes to the initial edges gives the final edges. */
  lemma ChangesReconstructFinal(initial: Graph, final: Graph)
    ensures var c := SceneChanges(initial, final);
      (EdgeSet(initial) - c.removed) + c.added == EdgeSet(final)
  {
  }

  // ----- the tool -----

  /** What one call of the tool answers. */
  datatype Response =
    | TaskFailed
    | NoCommand
    | ValidationFailed(reason: Rejection, failures: nat)
    | Executed(change: SceneChange)
    | TimedOut

  const MaxConsecutiveFailures: nat := 5

  /** The consecutive-failure counter after one call that got past the limit check. */
  function FailuresAfter(failures: nat, verdict: Verdict): nat
  {
    if verdict.Rejected? then failures + 1 else 0
  }

  /**
   * The validate-and-execute tool. The scene graph manager, the refresh
   * after a failure or a finished action, and the completion trigger are
   * not modelled: each call receives the graphs the manager would hand out
   * and whether the trigger arrived in time.
   */
  class ValidationTool {
    var validationCount: nat
    var successCount: nat
    var consecutiveFailures: nat
    var initGraph: Option<Graph>

    ghost predicate Valid()
      reads this
    {
      consecutiveFailures <= MaxConsecutiveFailures &&
      (validationCount == 0 ==> consecutiveFailures == 0) &&
      (validationCount > 0 ==> initGraph.Some?)
    }

    constructor ()
      ensures Valid()
      ensures validationCount == 0 && successCount == 0 && consecutiveFailures == 0 && initGraph == None
    {
      validationCount := 0;
      successCount := 0;
      consecutiveFailures := 0;
      initGraph := None;
    }

    /**
     * One call. `current` is the graph the manager holds when the first call
     * loads it; `refreshed` is the one it holds after a refresh; `triggered`
     * says whether the simulator signalled completion in time.
     */
    method Execute(query: string, current: Graph, refreshed: Graph, triggered: bool) returns (r: Response)
      requires Valid()
      modifies this
      ensures Valid()
      ensures validationCount == old(validationCount) + 1
      ensures old(consecutiveFailures) >= MaxConsecutiveFailures ==>
        r == TaskFailed && consecutiveFailures == 0 && successCount == old(successCount) && initGraph == old(initGraph)
      ensures old(consecutiveFailures) < MaxConsecutiveFailures ==>
        var loaded := if old(validationCount) == 0 then current else old(initGraph).value;
        if Strip(query) == [] then
          r == NoCommand && consecutiveFailures == old(consecutiveFailures) &&
          successCount == old(successCount) && initGraph == Some(loaded)
        else
          var v := Validate(query, loaded);
          consecutiveFailures == FailuresAfter(old(consecutiveFailures), v) &&
          if v.Rejected? then
            r == ValidationFailed(v.reason, consecutiveFailures) &&
            successCount == old(successCount) && initGraph == Some(refreshed)
          else
            successCount == old(successCount) + 1 &&
            (triggered ==> r == Executed(SceneChanges(loaded, refreshed)) && initGraph == Some(refreshed)) &&
            (!triggered ==> r == TimedOut && initGraph == Some(loaded))
    {
      validationCount := validationCount + 1;
      if consecutiveFailures >= MaxConsecutiveFailures {
        consecutiveFailures := 0;
        return TaskFailed;
      }
      if validationCount == 1 {
        initGraph := Some(current);
      }
      if Strip(query) == [] {
        return NoCommand;
      }
      var loaded := initGraph.value;
      var v := Validate(query, loaded);
      if v.Rejected? {
        consecutiveFailures := consecutiveFailures + 1;
        initGraph := Some(refreshed);
        return ValidationFailed(v.reason, consecutiveFailures);
      }
      successCount := successCount + 1;
      if consecutiveFailures > 0 {
        consecutiveFailures := 0;
      }
      if triggered {
        initGraph := Some(refreshed);
        r := Executed(SceneChanges(loaded, refreshed));
      } else {
        r := TimedOut;
      }
    }

    /** The agent's reset of the tool's counters between tasks. */
    method ResetValidationCount()
      requires Valid()
      modifies this
      ensures Valid()
      ensures validationCount == 0 && consecutiveFailures == 0
      ensures successCount == old(successCount) && initGraph == old(initGraph)
    {
      validationCount := 0;
      consecutiveFailures := 0;
    }
  }

  /** The counter value after a run of calls that each reached validation. */
  function FailuresAfterRun(failures: nat, verdicts: seq<Verdict>): nat
    decreases |verdicts|
  {
    if verdicts == [] then failures
    else FailuresAfterRun(FailuresAfter(failures, verdicts[0]), verdicts[1..])
  }

  /** Five rejected commands in a row from any counter value bring it to at least five, so the next call fails the task. */
  lemma {:induction false} FiveRejectionsReachTheLimit(failures: nat, verdicts: seq<Verdict>)
    requires forall i :: 0 <= i < |verdicts| ==> verdicts[i].Rejected?
    ensures FailuresAfterRun(failures, verdicts) == failures + |verdicts|
    ensures |verdicts| >= MaxConsecutiveFailures ==> FailuresAfterRun(failures, verdicts) >= MaxConsecutiveFailures
    decreases |verdicts|
  {
    if verdicts != [] {
      FiveRejectionsReachTheLimit(failures + 1, verdicts[1..]);
    }
  }

  /** A single accepted command clears the counter, whatever came before. */
  lemma {:induction false} AcceptanceClearsFailures(failures: nat, verdicts: seq<Verdict>, k: nat)
    requires k < |verdicts| && !verdicts[k].Rejected?
    requires forall i :: k < i < |verdicts| ==> verdicts[i].Rejected?
    ensures FailuresAfterRun(failures, verdicts) == |verdicts| - k - 1
    decreases |verdicts|
  {
    if k == 0 {
      FiveRejectionsReachTheLimit(0, verdicts[1..]);
    } else {
      AcceptanceClearsFailures(FailuresAfter(failures, verdicts[0]), verdicts[1..], k - 1);
    }
  }
}
