// The agent's control around the validation tool: the feedback message built
// from a tool result, the guard against repeated calls, the routing after an
// execution, and the retry loop around one user request.
module AgentControl {
  import opened Text
  import AgentText

  const ValidateTool := "ValidateAndExecuteAction"

  // ----- tool results and the feedback message -----

  /** The fields of a decoded tool result the agent reads; None for an absent key. */
  datatype ToolResult = ToolResult(status: Option<string>, errorReason: Option<string>, message: Option<string>)

  function OrDefault(o: Option<string>, d: string): string
  {
    if o.Some? then o.value else d
  }

  /** The first sentence of the feedback, chosen by the result's status ("unknown" when absent). */
  function FeedbackPrefix(r: ToolResult, query: string): string
  {
    var status := OrDefault(r.status, "unknown");
    if status == "execution_success" then "The previous action '" + query + "' was executed successfully."
    else if status == "validation_failed" then
      "The action '" + query + "' is invalid, reason: " + OrDefault(r.errorReason, "Unknown validation error")
    else if status == "task_failed" then
      "The action '" + query + "' failed, reason: " + OrDefault(r.errorReason, "Task failed")
    else if status == "execution_timeout" then "The action '" + query + "' timed out waiting for completion signal."
    else if status == "execution_error" then
      "The action '" + query + "' encountered an error: " + OrDefault(r.message, "Unknown execution error")
    else if OrDefault(r.message, "") != [] then "Action '" + query + "' result: " + r.message.value
    else "Action '" + query + "' completed with status: " + status
  }

  /**
   * The tool message content: the raw result when it does not decode, otherwise
   * the prefix and either the scene graph dump or a note that it is missing.
   */
  function FeedbackMessage(raw: string, parsed: Option<ToolResult>, query: string, scene: Option<string>): string
  {
    match parsed
    case None => raw
    case Some(r) =>
      match scene
      case Some(dump) => FeedbackPrefix(r, query) + "\n\nCurrent scene graph:\n" + dump
      case None => FeedbackPrefix(r, query) + "\n\n(Scene graph not available)"
  }

  /** The task-failed test on a tool result: the decoded status, else the word in the lowercased text. */
  predicate TaskFailedIn(raw: string, parsed: Option<ToolResult>)
  {
    match parsed
    case Some(r) => r.status == Some("task_failed")
    case None => Contains(Lower(raw), "task_failed")
  }

  /**
   * A text no JSON document can be: its first character opens no JSON value
   * (objects, arrays, strings, numbers, true/false/null, NaN and Infinity).
   */
  predicate CannotBeJson(s: string)
  {
    s != [] && !IsSpace(s[0]) && s[0] !in "{[\"-0123456789tfnNI"
  }

  /** A decoded result always yields a feedback message that is not JSON. */
  lemma FeedbackIsNotJson(raw: string, r: ToolResult, query: string, scene: Option<string>)
    ensures CannotBeJson(FeedbackMessage(raw, Some(r), query, scene))
  {
    var p := FeedbackPrefix(r, query);
    var status := OrDefault(r.status, "unknown");
    if status == "execution_success" {
      assert p == "The previous action '" + query + "' was executed successfully.";
    } else if status == "validation_failed" {
      assert p == "The action '" + query + "' is invalid, reason: " + OrDefault(r.errorReason, "Unknown validation error");
    } else if status == "task_failed" {
      assert p == "The action '" + query + "' failed, reason: " + OrDefault(r.errorReason, "Task failed");
    } else if status == "execution_timeout" {
      assert p == "The action '" + query + "' timed out waiting for completion signal.";
    } else if status == "execution_error" {
      assert p == "The action '" + query + "' encountered an error: " + OrDefault(r.message, "Unknown execution error");
    } else if OrDefault(r.message, "") != [] {
      assert p == "Action '" + query + "' result: " + r.message.value;
    } else {
      assert p == "Action '" + query + "' completed with status: " + status;
    }
    assert p[0] == 'T' || p[0] == 'A';
    var m := FeedbackMessage(raw, Some(r), query, scene);
    assert m[0] == p[0];
  }

  /** The prefix of a successful execution. */
  lemma SuccessPrefix(r: ToolResult, query: string)
    requires r.status == Some("execution_success")
    ensures FeedbackPrefix(r, query) == "The previous action '" + query + "' was executed successfully."
  {
  }

  /** The prefix of a validation failure. */
  lemma ValidationPrefix(r: ToolResult, query: string)
    requires r.status == Some("validation_failed")
    ensures FeedbackPrefix(r, query) == "The action '" + query + "' is invalid, reason: " + OrDefault(r.errorReason, "Unknown validation error")
  {
    assert "validation_failed" != "execution_success" by { assert "validation_failed"[0] != "execution_success"[0]; }
  }

  // ----- messages and routing -----

  /** What decoding a message content gives: no JSON, or a JSON object with its "status" ("" when absent). */
  datatype Reading = NotJson | JsonObject(status: string)

  /** A conversation message: its text, its name (tool messages carry the tool's), and its decoding. */
  datatype Message = Message(content: string, name: Option<string>, reading: Reading)

  datatype Route = Continue | End | Execute

  /** Which node wrote an execution record. */
  datatype RecordKind = ModelCall | ToolsCall | InitialInfo | ValidateExecute

  /** An execution record, reduced to the flags the routing reads. */
  datatype ExecutionRecord = ExecutionRecord(kind: RecordKind, actionInvalid: bool, taskFailed: bool)

  /** After the model speaks: execute when any tool call names the validation tool. */
  function ShouldExecuteAction(toolCallNames: seq<Option<string>>): (r: Route)
    ensures r == Execute <==> Some(ValidateTool) in toolCallNames
    ensures r == Execute || r == End
  {
    if Some(ValidateTool) in toolCallNames then Execute else End
  }

  /** The last message the validation tool wrote. */
  function LastToolMessage(msgs: seq<Message>): Option<Message>
  {
    if msgs == [] then None
    else if msgs[|msgs| - 1].name == Some(ValidateTool) then Some(msgs[|msgs| - 1])
    else LastToolMessage(msgs[..|msgs| - 1])
  }

  /** None exactly when the tool wrote nothing; otherwise a message of the tool with none of the tool's after it. */
  lemma {:induction false} LastToolMessageIsLast(msgs: seq<Message>)
    ensures LastToolMessage(msgs).None? <==> forall i :: 0 <= i < |msgs| ==> msgs[i].name != Some(ValidateTool)
    ensures LastToolMessage(msgs).Some? ==>
              exists i :: 0 <= i < |msgs| && msgs[i] == LastToolMessage(msgs).value && msgs[i].name == Some(ValidateTool) &&
                          forall j :: i < j < |msgs| ==> msgs[j].name != Some(ValidateTool)
  {
    if msgs != [] && msgs[|msgs| - 1].name != Some(ValidateTool) {
      var init := msgs[..|msgs| - 1];
      LastToolMessageIsLast(init);
      assert forall i :: 0 <= i < |init| ==> init[i] == msgs[i];
      if LastToolMessage(init).Some? {
        var i :| 0 <= i < |init| && init[i] == LastToolMessage(init).value && init[i].name == Some(ValidateTool) &&
                 forall j :: i < j < |init| ==> init[j].name != Some(ValidateTool);
        assert msgs[i] == init[i];
      }
    }
  }

  /** A tool message reporting that the action was invalid or that the task failed. */
  predicate ReportsFailure(m: Message)
  {
    match m.reading
    case JsonObject(status) => status == "validation_failed" || status == "task_failed"
    case NotJson => StartsWith(m.content, "The action '") && Contains(m.content, "is invalid, reason:")
  }

  predicate IsTaskFailedNote(m: Message) { StartsWith(m.content, "TASK_FAILED:") }

  /**
   * After an execution: end on a TASK_FAILED note anywhere, on a failure in the
   * last tool message, on the state's flag, or when the last record is a failed
   * execution; continue otherwise.
   */
  function ShouldContinueAfterExecution(msgs: seq<Message>, stateTaskFailed: bool, records: seq<ExecutionRecord>): (r: Route)
    ensures r == Continue || r == End
    ensures (exists i :: 0 <= i < |msgs| && IsTaskFailedNote(msgs[i])) ==> r == End
    ensures stateTaskFailed ==> r == End
  {
    if exists i :: 0 <= i < |msgs| && IsTaskFailedNote(msgs[i]) then End
    else if LastToolMessage(msgs).Some? && ReportsFailure(LastToolMessage(msgs).value) then End
    else if stateTaskFailed then End
    else if records != [] && records[|records| - 1].kind == ValidateExecute && records[|records| - 1].taskFailed then End
    else Continue
  }

  /** The message the tool node writes for a result. */
  function ToolMessageFor(raw: string, parsed: Option<ToolResult>, query: string, scene: Option<string>, reading: Reading): Message
  {
    Message(FeedbackMessage(raw, parsed, query, scene), Some(ValidateTool), reading)
  }

  lemma LastToolMessageOfAppend(msgs: seq<Message>, m: Message)
    requires m.name == Some(ValidateTool)
    ensures LastToolMessage(msgs + [m]) == Some(m)
  {
    assert (msgs + [m])[|msgs + [m]| - 1] == m;
  }

  /** A tool message that reports a failure ends the run when it is the newest message. */
  lemma ReportedFailureEndsRun(msgs: seq<Message>, stateTaskFailed: bool, records: seq<ExecutionRecord>, m: Message)
    requires m.name == Some(ValidateTool) && ReportsFailure(m)
    ensures ShouldContinueAfterExecution(msgs + [m], stateTaskFailed, records) == End
  {
    LastToolMessageOfAppend(msgs, m);
  }

  /** Any text of the routing's "is invalid" shape is recognised by its two tests. */
  lemma InvalidTextShape(query: string, y: string)
    ensures StartsWith("The action '" + query + "' is invalid, reason: " + y, "The action '")
    ensures Contains("The action '" + query + "' is invalid, reason: " + y, "is invalid, reason:")
  {
    var x := "The action '" + query;
    var s := x + "' is invalid, reason: " + y;
    assert "' is invalid, reason: " == "' " + "is invalid, reason:" + " ";
    assert s == (x + "' ") + "is invalid, reason:" + (" " + y);
    OccursInConcat(x + "' ", "is invalid, reason:", " " + y);
    assert s[..12] == "The action '";
  }

  /** The feedback for a validation_failed result has the text the routing looks for. */
  lemma ValidationFeedbackShape(raw: string, r: ToolResult, query: string, scene: Option<string>)
    requires r.status == Some("validation_failed")
    ensures StartsWith(FeedbackMessage(raw, Some(r), query, scene), "The action '")
    ensures Contains(FeedbackMessage(raw, Some(r), query, scene), "is invalid, reason:")
  {
    var reason := OrDefault(r.errorReason, "Unknown validation error");
    var tail := if scene.Some? then "\n\nCurrent scene graph:\n" + scene.value else "\n\n(Scene graph not available)";
    ValidationPrefix(r, query);
    var x := "The action '" + query + "' is invalid, reason: ";
    var content := FeedbackMessage(raw, Some(r), query, scene);
    assert content == (x + reason) + tail;
    assert content == x + (reason + tail);
    InvalidTextShape(query, reason + tail);
  }

  /**
   * A validation failure ends the run: whatever came before, once the tool's
   * feedback for a validation_failed result is the newest message, the agent
   * stops (the feedback is no JSON, so its text decides).
   */
  lemma ValidationFailureEndsRun(msgs: seq<Message>, stateTaskFailed: bool, records: seq<ExecutionRecord>,
                                 raw: string, r: ToolResult, query: string, scene: Option<string>, reading: Reading)
    requires r.status == Some("validation_failed")
    requires CannotBeJson(FeedbackMessage(raw, Some(r), query, scene)) ==> reading == NotJson
    ensures ShouldContinueAfterExecution(msgs + [ToolMessageFor(raw, Some(r), query, scene, reading)], stateTaskFailed, records) == End
  {
    FeedbackIsNotJson(raw, r, query, scene);
    ValidationFeedbackShape(raw, r, query, scene);
    ReportedFailureEndsRun(msgs, stateTaskFailed, records, ToolMessageFor(raw, Some(r), query, scene, reading));
  }

  /** An execution record that reports a failed task ends the run when it is the newest one. */
  lemma FailedRecordEndsRun(msgs: seq<Message>, stateTaskFailed: bool, records: seq<ExecutionRecord>, invalid: bool)
    ensures ShouldContinueAfterExecution(msgs, stateTaskFailed, records + [ExecutionRecord(ValidateExecute, invalid, true)]) == End
  {
    var rs := records + [ExecutionRecord(ValidateExecute, invalid, true)];
    assert rs[|rs| - 1] == ExecutionRecord(ValidateExecute, invalid, true);
  }

  /**
   * A successful execution lets the agent go on, when nothing else in the
   * conversation, the state or the records reports a failure.
   */
  lemma SuccessContinues(msgs: seq<Message>, records: seq<ExecutionRecord>,
                         raw: string, r: ToolResult, query: string, scene: Option<string>, reading: Reading)
    requires r.status == Some("execution_success")
    requires CannotBeJson(FeedbackMessage(raw, Some(r), query, scene)) ==> reading == NotJson
    requires forall i :: 0 <= i < |msgs| ==> !IsTaskFailedNote(msgs[i])
    requires records != [] ==> !(records[|records| - 1].kind == ValidateExecute && records[|records| - 1].taskFailed)
    ensures ShouldContinueAfterExecution(msgs + [ToolMessageFor(raw, Some(r), query, scene, reading)], false, records) == Continue
  {
    var m := ToolMessageFor(raw, Some(r), query, scene, reading);
    var all := msgs + [m];
    FeedbackIsNotJson(raw, r, query, scene);
    LastToolMessageOfAppend(msgs, m);
    SuccessPrefix(r, query);
    assert m.content[..12] != "The action '" by {
      assert m.content[4] == 'p';
    }
    assert m.content[0] == 'T';
    forall i | 0 <= i < |all| ensures !IsTaskFailedNote(all[i])
    {
      if i == |msgs| {
        assert all[i].content[1] == 'h';
      } else {
        assert all[i] == msgs[i];
      }
    }
  }

  // ----- the repeated-call guard -----

  /** The guard's memory: the last two distinct call arguments and how often the last one came again. */
  datatype GuardState = GuardState(last: Option<string>, lastLast: Option<string>, count: nat)

  datatype GuardVerdict = Proceed | SameAsBeforeLast | Repeated

  const RepeatLimit := 5
  const FreshGuard := GuardState(None, None, 0)

  /** The guard's invariant: the count is below the limit, belongs to a last call, and the two calls differ. */
  predicate GuardOk(g: GuardState)
  {
    g.count < RepeatLimit &&
    (g.count > 0 ==> g.last.Some?) &&
    (g.last.Some? && g.lastLast.Some? ==> g.last != g.lastLast)
  }

  /** One call through the guard: its verdict and the guard's next memory. */
  function GuardStep(g: GuardState, args: string): (GuardVerdict, GuardState)
  {
    if g.lastLast == Some(args) then (SameAsBeforeLast, FreshGuard)
    else if g.last == Some(args) then
      if g.count + 1 >= RepeatLimit then (Repeated, GuardState(None, g.lastLast, 0))
      else (Proceed, GuardState(g.last, g.lastLast, g.count + 1))
    else (Proceed, GuardState(Some(args), g.last, 0))
  }

  /** Every call keeps the guard's invariant. */
  lemma GuardStepKeeps(g: GuardState, args: string)
    requires GuardOk(g)
    ensures GuardOk(GuardStep(g, args).1)
  {
  }

  /** The verdicts of a sequence of calls. */
  function GuardRun(g: GuardState, calls: seq<string>): (r: seq<GuardVerdict>)
    ensures |r| == |calls|
    decreases |calls|
  {
    if calls == [] then [] else [GuardStep(g, calls[0]).0] + GuardRun(GuardStep(g, calls[0]).1, calls[1..])
  }

  /** A call accepted by the guard becomes its last call. */
  lemma ProceedRemembers(g: GuardState, args: string)
    requires GuardStep(g, args).0 == Proceed
    ensures GuardStep(g, args).1.last == Some(args)
  {
  }

  /** A, B, A: after two accepted calls A and then B, calling A again is rejected. */
  lemma AlternationRejected(g: GuardState, a: string, b: string)
    requires GuardOk(g) && a != b
    requires GuardStep(g, a).0 == Proceed
    requires GuardStep(GuardStep(g, a).1, b).0 == Proceed
    ensures GuardStep(GuardStep(GuardStep(g, a).1, b).1, a).0 == SameAsBeforeLast
  {
    var s1 := GuardStep(g, a).1;
    ProceedRemembers(g, a);
    assert s1.last == Some(a);
  }

  /** From any guard state, a run of six identical calls has a rejected call. */
  lemma SixIdenticalCallsRejected(g: GuardState, a: string)
    requires GuardOk(g)
    ensures exists i :: 0 <= i < 6 && GuardRun(g, [a, a, a, a, a, a])[i] != Proceed
  {
    var calls := [a, a, a, a, a, a];
    var s0 := g;
    var s1 := GuardStep(s0, a).1;
    var s2 := GuardStep(s1, a).1;
    var s3 := GuardStep(s2, a).1;
    var s4 := GuardStep(s3, a).1;
    var s5 := GuardStep(s4, a).1;
    var run := GuardRun(g, calls);
    assert calls[1..] == [a, a, a, a, a];
    assert [a, a, a, a, a][1..] == [a, a, a, a];
    assert [a, a, a, a][1..] == [a, a, a];
    assert [a, a, a][1..] == [a, a];
    assert [a, a][1..] == [a];
    assert GuardRun(s5, [a]) == [GuardStep(s5, a).0] by { assert [a][1..] == []; }
    assert GuardRun(s4, [a, a]) == [GuardStep(s4, a).0, GuardStep(s5, a).0];
    assert GuardRun(s3, [a, a, a]) == [GuardStep(s3, a).0, GuardStep(s4, a).0, GuardStep(s5, a).0];
    assert GuardRun(s2, [a, a, a, a]) == [GuardStep(s2, a).0, GuardStep(s3, a).0, GuardStep(s4, a).0, GuardStep(s5, a).0];
    assert GuardRun(s1, [a, a, a, a, a]) ==
           [GuardStep(s1, a).0, GuardStep(s2, a).0, GuardStep(s3, a).0, GuardStep(s4, a).0, GuardStep(s5, a).0];
    assert run == [GuardStep(s0, a).0, GuardStep(s1, a).0, GuardStep(s2, a).0,
                   GuardStep(s3, a).0, GuardStep(s4, a).0, GuardStep(s5, a).0];
    if forall i :: 0 <= i < 5 ==> run[i] == Proceed {
      assert run[0] == Proceed && run[1] == Proceed && run[2] == Proceed && run[3] == Proceed && run[4] == Proceed;
      ProceedRemembers(s0, a);
      assert s1.last == Some(a);
      assert GuardStep(s1, a).0 == Proceed;
      assert GuardStep(s2, a).0 == Proceed;
      assert GuardStep(s3, a).0 == Proceed;
      assert GuardStep(s4, a).0 == Proceed;
      assert s2.count == s1.count + 1 && s3.count == s2.count + 1;
      assert s4.count == s3.count + 1 && s5.count == s4.count + 1;
      assert run[5] == Repeated;
    }
  }

  /** A call as the model wrote it; its arguments are reduced to the query they carry. */
  datatype ToolCall = ToolCall(name: string, query: string)

  /** What the node hands back to the conversation. */
  datatype NodeOutput =
    | NoMessages
    | InvalidCall(text: string)
    | ToolReply(message: Message, continueNote: bool)

  /**
   * `str(tool_args)` of the arguments dictionary. Python's repr would escape
   * a query holding quotes or backslashes; this text does not, but it still
   * tells different queries apart (`ArgsTextInjective`), which is all the
   * repeat guard's messages rely on.
   */
  function ArgsText(query: string): string { "{'query': '" + query + "'}" }

  lemma ArgsTextInjective(q1: string, q2: string)
    ensures ArgsText(q1) == ArgsText(q2) ==> q1 == q2
  {
    if ArgsText(q1) == ArgsText(q2) {
      assert q1 == ArgsText(q1)[11..|ArgsText(q1)| - 2];
      assert q2 == ArgsText(q2)[11..|ArgsText(q2)| - 2];
    }
  }

  function InvalidText(v: GuardVerdict, query: string): string
  {
    if v == SameAsBeforeLast then "invalid, reason: The action \"" + ArgsText(query) + "\" is the same as the one before last."
    else "invalid, reason: The action \"" + ArgsText(query) + "\" was repeated."
  }

  /** The agent's memory across tool calls: the guard and the execution records. */
  class RepeatGuard {
    var lastCallMessage: Option<string>
    var lastLastCallMessage: Option<string>
    var sameToolCount: nat
    var executionRecords: seq<ExecutionRecord>

    function State(): GuardState
      reads this
    {
      GuardState(lastCallMessage, lastLastCallMessage, sameToolCount)
    }

    predicate Valid()
      reads this
    {
      GuardOk(State())
    }

    constructor()
      ensures Valid() && State() == FreshGuard && executionRecords == []
    {
      lastCallMessage := None;
      lastLastCallMessage := None;
      sameToolCount := 0;
      executionRecords := [];
    }

    /**
     * The validation node on the newest model message. The first tool call goes
     * through the guard; a rejected call yields an invalid note and an
     * invalid-action record; an accepted call to the validation tool yields its
     * feedback (and a note to go on planning when the task failed) and a record
     * of whether the task failed. The tool's answer and its decoding are inputs.
     */
    method CallValidateExecute(call: Option<ToolCall>, raw: string, parsed: Option<ToolResult>,
                               scene: Option<string>, reading: Reading) returns (out: NodeOutput)
      requires Valid()
      modifies this
      ensures Valid()
      ensures call.None? ==> State() == old(State()) && out == NoMessages &&
                             executionRecords == old(executionRecords) + [ExecutionRecord(ValidateExecute, false, false)]
      ensures call.Some? ==> State() == GuardStep(old(State()), call.value.query).1
      ensures call.Some? && GuardStep(old(State()), call.value.query).0 != Proceed ==>
                out == InvalidCall(InvalidText(GuardStep(old(State()), call.value.query).0, call.value.query)) &&
                executionRecords == old(executionRecords) + [ExecutionRecord(ValidateExecute, true, false)]
      ensures call.Some? && GuardStep(old(State()), call.value.query).0 == Proceed && call.value.name != ValidateTool ==>
                out == NoMessages && executionRecords == old(executionRecords) + [ExecutionRecord(ValidateExecute, false, false)]
      ensures call.Some? && GuardStep(old(State()), call.value.query).0 == Proceed && call.value.name == ValidateTool ==>
                out == ToolReply(ToolMessageFor(raw, parsed, call.value.query, scene, reading), TaskFailedIn(raw, parsed)) &&
                executionRecords == old(executionRecords) + [ExecutionRecord(ValidateExecute, false, TaskFailedIn(raw, parsed))]
    {
      if call.None? {
        executionRecords := executionRecords + [ExecutionRecord(ValidateExecute, false, false)];
        return NoMessages;
      }
      var args := call.value.query;
      if lastLastCallMessage.Some? && args == lastLastCallMessage.value {
        sameToolCount := 0;
        lastCallMessage := None;
        lastLastCallMessage := None;
        executionRecords := executionRecords + [ExecutionRecord(ValidateExecute, true, false)];
        return InvalidCall(InvalidText(SameAsBeforeLast, args));
      }
      if lastCallMessage.Some? && args == lastCallMessage.value {
        sameToolCount := sameToolCount + 1;
        if sameToolCount >= RepeatLimit {
          sameToolCount := 0;
          lastCallMessage := None;
          executionRecords := executionRecords + [ExecutionRecord(ValidateExecute, true, false)];
          return InvalidCall(InvalidText(Repeated, args));
        }
      } else {
        sameToolCount := 0;
        lastLastCallMessage := lastCallMessage;
        lastCallMessage := Some(args);
      }
      var taskFailed := false;
      out := NoMessages;
      if call.value.name == ValidateTool {
        out := ToolReply(ToolMessageFor(raw, parsed, args, scene, reading), false);
        match parsed {
          case Some(r) => taskFailed := r.status == Some("task_failed");
          case None => taskFailed := Contains(Lower(raw), "task_failed");
        }
        out := out.(continueNote := taskFailed);
      }
      executionRecords := executionRecords + [ExecutionRecord(ValidateExecute, false, taskFailed)];
    }

    /** The guard part of resetting the validation count, done only when the tool is present. */
    method ResetGuard(toolPresent: bool)
      requires Valid()
      modifies this
      ensures Valid()
      ensures toolPresent ==> State() == FreshGuard
      ensures !toolPresent ==> State() == old(State())
      ensures executionRecords == old(executionRecords)
    {
      if toolPresent {
        sameToolCount := 0;
        lastCallMessage := None;
        lastLastCallMessage := None;
      }
    }

    /** Saving a task report forgets the last call and its count, but not the one before. */
    method ResetAfterReport()
      requires Valid()
      modifies this
      ensures Valid()
      ensures State() == GuardState(None, old(lastLastCallMessage), 0)
      ensures executionRecords == old(executionRecords)
    {
      lastCallMessage := None;
      sameToolCount := 0;
    }

    method ResetExecutionRecords()
      requires Valid()
      modifies this
      ensures Valid() && State() == old(State()) && executionRecords == []
    {
      executionRecords := [];
    }
  }

  // ----- the retry loop around one request -----

  datatype RetryConfig = RetryConfig(maxRetries: int, baseDelay: int, maxDelay: int, backoffFactor: int,
                                     retryOnTimeout: bool, retryOn429: bool, retryOn500: bool)

  /** The configured retry settings; the 500 switch is absent there and defaults to on. */
  const ConfiguredRetry := RetryConfig(10, 15, 120, 2, true, true, true)

  /** How one attempt ended; the agent's run itself is an input. */
  datatype Attempt = Answered(text: string) | TimedOut | Raised(error: string)

  /** The reply of the request. */
  datatype TaskEnd =
    | Answer(text: string)
    | TimeoutGiveUp
    | RateLimitGiveUp(error: string)
    | ServerErrorGiveUp(error: string)
    | AgentError(error: string)
    | RetriesExhausted
    | NotReady

  datatype AttemptStep = Finish(end: TaskEnd) | Wait(delay: int)

  function Pow(b: int, e: nat): int
  {
    if e == 0 then 1 else b * Pow(b, e - 1)
  }

  function Min(a: int, b: int): int { if a <= b then a else b }
  function Max(a: int, b: int): int { if a >= b then a else b }

  function Backoff(cfg: RetryConfig, attempt: nat): int { cfg.baseDelay * Pow(cfg.backoffFactor, attempt) }

  /** What follows an attempt: a retry after a delay, or the reply. */
  function StepAfter(cfg: RetryConfig, attempt: nat, a: Attempt): (r: AttemptStep)
    ensures r.Wait? ==> attempt < cfg.maxRetries && r.delay <= cfg.maxDelay
    ensures r.Wait? ==> (a.TimedOut? && cfg.retryOnTimeout) || a.Raised?
  {
    match a
    case Answered(text) => Finish(Answer(text))
    case TimedOut =>
      if attempt < cfg.maxRetries && cfg.retryOnTimeout then Wait(Min(Backoff(cfg, attempt), cfg.maxDelay))
      else Finish(TimeoutGiveUp)
    case Raised(e) =>
      if AgentText.IsRateLimitError(e) && cfg.retryOn429 then
        if attempt < cfg.maxRetries then
          Wait(Min(Max(AgentText.ExtractRetryDelay(e, cfg.baseDelay), Backoff(cfg, attempt)), cfg.maxDelay))
        else Finish(RateLimitGiveUp(e))
      else if AgentText.IsServerError(e) && cfg.retryOn500 then
        if attempt < cfg.maxRetries then Wait(Min(Backoff(cfg, attempt), cfg.maxDelay))
        else Finish(ServerErrorGiveUp(e))
      else Finish(AgentError(e))
  }

  /** The attempts from `attempt` on: the reply and the delays slept before it. */
  function RetryRun(cfg: RetryConfig, outcome: nat -> Attempt, attempt: nat): (TaskEnd, seq<int>)
    decreases cfg.maxRetries + 1 - attempt
  {
    if attempt > cfg.maxRetries then (RetriesExhausted, [])
    else
      match StepAfter(cfg, attempt, outcome(attempt))
      case Finish(e) => (e, [])
      case Wait(d) =>
        var rest := RetryRun(cfg, outcome, attempt + 1);
        (rest.0, [d] + rest.1)
  }

  /** process_user_input's loop: attempts until one finishes; the outcome of each attempt is an input. */
  method ProcessUserInput(isReady: bool, cfg: RetryConfig, outcome: nat -> Attempt) returns (end: TaskEnd, delays: seq<int>)
    ensures !isReady ==> end == NotReady && delays == []
    ensures isReady ==> (end, delays) == RetryRun(cfg, outcome, 0)
  {
    if !isReady {
      return NotReady, [];
    }
    delays := [];
    var attempt: nat := 0;
    assert delays + RetryRun(cfg, outcome, 0).1 == RetryRun(cfg, outcome, 0).1;
    while attempt <= cfg.maxRetries
      invariant RetryRun(cfg, outcome, 0) == (RetryRun(cfg, outcome, attempt).0, delays + RetryRun(cfg, outcome, attempt).1)
      decreases cfg.maxRetries + 1 - attempt
    {
      var step := StepAfter(cfg, attempt, outcome(attempt));
      match step {
        case Finish(e) =>
          assert RetryRun(cfg, outcome, attempt) == (e, []);
          assert delays + [] == delays;
          return e, delays;
        case Wait(d) =>
          assert RetryRun(cfg, outcome, attempt).1 == [d] + RetryRun(cfg, outcome, attempt + 1).1;
          assert delays + ([d] + RetryRun(cfg, outcome, attempt + 1).1) == (delays + [d]) + RetryRun(cfg, outcome, attempt + 1).1;
          delays := delays + [d];
          attempt := attempt + 1;
      }
    }
    assert delays + [] == delays;
    end := RetriesExhausted;
  }

  /** Every delay is at most the configured maximum, and there is at most one per allowed retry. */
  lemma {:induction false} RetryDelaysBounded(cfg: RetryConfig, outcome: nat -> Attempt, attempt: nat)
    ensures forall k :: 0 <= k < |RetryRun(cfg, outcome, attempt).1| ==> RetryRun(cfg, outcome, attempt).1[k] <= cfg.maxDelay
    ensures attempt <= cfg.maxRetries ==> |RetryRun(cfg, outcome, attempt).1| <= cfg.maxRetries - attempt
    ensures attempt > cfg.maxRetries ==> RetryRun(cfg, outcome, attempt).1 == []
    decreases cfg.maxRetries + 1 - attempt
  {
    if attempt <= cfg.maxRetries {
      match StepAfter(cfg, attempt, outcome(attempt))
      case Finish(e) =>
      case Wait(d) =>
        RetryDelaysBounded(cfg, outcome, attempt + 1);
    }
  }

  /**
   * The fallback reply after the loop is reached only when no attempt is
   * allowed at all: with a non-negative retry count the last attempt always
   * gives a reply of its own.
   */
  lemma {:induction false} ExhaustedOnlyWithoutAttempts(cfg: RetryConfig, outcome: nat -> Attempt, attempt: nat)
    requires attempt <= cfg.maxRetries + 1
    ensures RetryRun(cfg, outcome, attempt).0 == RetriesExhausted <==> attempt == cfg.maxRetries + 1
    decreases cfg.maxRetries + 1 - attempt
  {
    if attempt <= cfg.maxRetries {
      match StepAfter(cfg, attempt, outcome(attempt))
      case Finish(e) =>
        assert e != RetriesExhausted;
      case Wait(d) =>
        ExhaustedOnlyWithoutAttempts(cfg, outcome, attempt + 1);
    }
  }

  /** A rate-limit retry waits at least the suggested delay, unless that exceeds the maximum. */
  lemma RateLimitHonoursSuggestion(cfg: RetryConfig, attempt: nat, e: string)
    requires AgentText.IsRateLimitError(e) && cfg.retryOn429 && attempt < cfg.maxRetries
    ensures StepAfter(cfg, attempt, Raised(e)).Wait?
    ensures StepAfter(cfg, attempt, Raised(e)).delay == Min(Max(AgentText.ExtractRetryDelay(e, cfg.baseDelay), Backoff(cfg, attempt)), cfg.maxDelay)
    ensures StepAfter(cfg, attempt, Raised(e)).delay >= Min(AgentText.ExtractRetryDelay(e, cfg.baseDelay), cfg.maxDelay)
    ensures StepAfter(cfg, attempt, Raised(e)).delay >= Min(Backoff(cfg, attempt), cfg.maxDelay)
  {
  }

  /** An agent that always times out is retried with the backoff delays, then given up on. */
  lemma {:induction false} AlwaysTimingOut(cfg: RetryConfig, outcome: nat -> Attempt, attempt: nat)
    requires cfg.retryOnTimeout && attempt <= cfg.maxRetries
    requires forall k :: outcome(k) == TimedOut
    ensures RetryRun(cfg, outcome, attempt).0 == TimeoutGiveUp
    ensures |RetryRun(cfg, outcome, attempt).1| == cfg.maxRetries - attempt
    ensures forall k :: 0 <= k < |RetryRun(cfg, outcome, attempt).1| ==>
              RetryRun(cfg, outcome, attempt).1[k] == Min(Backoff(cfg, attempt + k), cfg.maxDelay)
    decreases cfg.maxRetries - attempt
  {
    if attempt < cfg.maxRetries {
      AlwaysTimingOut(cfg, outcome, attempt + 1);
      var rest := RetryRun(cfg, outcome, attempt + 1).1;
      assert RetryRun(cfg, outcome, attempt).1 == [Min(Backoff(cfg, attempt), cfg.maxDelay)] + rest;
      forall k | 1 <= k < 1 + |rest|
        ensures RetryRun(cfg, outcome, attempt).1[k] == Min(Backoff(cfg, attempt + k), cfg.maxDelay)
      {
        assert RetryRun(cfg, outcome, attempt).1[k] == rest[k - 1];
      }
    }
  }

  /** With the configured settings the backoff doubles from 15 seconds and is capped at 120 from the fourth retry on. */
  lemma ConfiguredBackoff(k: nat)
    ensures k <= 3 ==> Min(Backoff(ConfiguredRetry, k), ConfiguredRetry.maxDelay) == 15 * Pow(2, k)
    ensures k >= 3 ==> Min(Backoff(ConfiguredRetry, k), ConfiguredRetry.maxDelay) == 120
  {
    PowGrows(k);
    if k <= 3 {
      assert Pow(2, k) <= 8 by {
        assert Pow(2, 0) == 1 && Pow(2, 1) == 2 && Pow(2, 2) == 4 && Pow(2, 3) == 8;
      }
    }
  }

  lemma {:induction false} PowGrows(k: nat)
    ensures Pow(2, k) >= 1
    ensures k >= 3 ==> Pow(2, k) >= 8
  {
    if k > 0 {
      PowGrows(k - 1);
      if k == 3 {
        assert Pow(2, 3) == 8;
      }
    }
  }
}
