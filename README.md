# A verified model of the GSR-bench agent, validator and scorers

GSR-bench evaluates a language-model agent that rearranges objects on a
simulated desk. The desk holds cubes and mugs, three coloured boxes, a
table and a three-drawer cabinet. The agent proposes actions such as
`move red_cube1 into red_box` or `open short_cabinet/drawer_low`. A
validation tool checks each action against the current symbolic scene
graph before the simulator executes it. Afterwards, an offline scorer reads
each run's report, judges the final scene against the task goal, and
aggregates the verdicts into success rates per task category.

This project models that Python logic in Dafny and proves its properties.
A scene graph is a list of node strings, such as `red_box` or
`short_cabinet/drawer_low(open)`. It also has a list of edge strings:
`A(on)B`, `A(in)B`, and the table-status edge `0=T` or `0=F`. String
matching is written out by hand for the shapes the code accepts, including
its regular expressions, `in`, `startswith`, `strip`, `split` and `lower`.

The modules follow the source files:

| module | source |
|---|---|
| `Text` | helpers standing in for the Python `str` methods used throughout |
| `ActionCommands`, `SceneAnalysis`, `ActionValidation` | `langgraph_agent/tools/action_validation_execution_tool.py`: command parsing, scene analysis, the precondition checks, and the tool's failure counter (a class) |
| `StabilityTracking` | `langgraph_agent/utils/scene_graph_manager.py`: the scene graph manager (a class) and its text converters |
| `AgentText`, `AgentControl` | `langgraph_agent/core/agent_reflect.py`: reading actions, tasks and retry hints from text; the repeat-call guard (a class); routing; and the retry delays |
| `SceneSummary` | `langgraph_agent/tools/scene_graph_tool.py`: format detection, the summaries and box accessibility |
| `ReportGoals`, `ReportScene`, `LayerJudge`, `LayerExamples`, `DrawerGoals`, `DrawerItems`, `ColourJudges`, `ColourDrawers`, `MoveJudge`, `MoveGoals`, `ReportDispatch` | `report_analysis/Auto_extract_report_data_batch.py`: goal classification, the five judges, the dispatcher and the log entry |
| `SuccessRate` | `report_analysis/analyze_success_rate.py`: log parsing, the four-way classification, category counts and their sums |
| `ConfigStore` | `3Ddesk/server_setting/config_server.py`: the configuration list behind save, load, delete and list (a class) |
| `ToolStats` | `langgraph_agent/tools/base_tool.py`: call counting and history (a class) |

Code that updates state in place is modelled as classes with `modifies`
clauses. Examples are the manager's stability counters, the validation
tool's counters, the repeat guard, the configuration list and the tool
statistics. Their methods state the new state exactly, and lemmas prove the
invariants those states keep. Loops that build sets, lists or counts become
methods whose `ensures` equate their result to a specification function. The
properties are proved about those functions.

Some behaviour of the code as written shows up in the proofs:

- `classify_task_type` returns only 1 or 2, so the dispatcher's
  unknown-type branch is never taken (`ReportGoals.ClassifyTaskType`).
- Every type-2 goal matches one of the three type-2 phrases, so the type-2
  fallback judge is never called (`ReportDispatch.TypeTwoAlwaysRouted`).
- Every failing judgement carries a non-empty error, since each judge's
  error message starts with fixed text (`ReportDispatch.ErrorText`). A
  processed report is therefore always logged as SUCCESS or ERROR. FAILED
  appears only for reports without a scene graph
  (`ReportDispatch.LoggedStatus`).
- In the type-1 judge, the search for `cubes|mugs` after the uncoloured
  pattern always succeeds (`MoveJudge.KindAlwaysFound`).
- A goal that selects no items succeeds with 0 of 0
  (`MoveJudge.NothingSelectedSucceeds`).
- The cube-capacity check in the validator rejects at ten or more cubes,
  although its message says the limit is three. The model follows the code
  (`SceneAnalysis.CubeCapacityRule`).
- A single named item placed alone in a drawer takes the all-in-one-drawer
  branch and scores 0.8 (`DrawerItems.PlacementAllInOne`).
- The stability check compares whole scene dictionaries. A frame that
  carries its own timestamp therefore never equals the one before it, and
  the stable-frame count stays at 1 (`StabilityTracking.DistinctFramesStayAtOne`,
  `StabilityTracking.TimestampedFramesRestart`). Only frames without such a
  changing key can ever reach the threshold.

## Model

| member | source | states |
|---|---|---|
| ActionCommands.ParseNormalises | langgraph_agent/tools/action_validation_execution_tool.py:474-533 | the parser first trims and lowercases its input, so a command and its trimmed lower-case form parse alike |
| ActionCommands.UnknownShapeRejected | langgraph_agent/tools/action_validation_execution_tool.py:474-533 | a command whose trimmed lower-case form is empty or starts with none of the letters of open, close, move, put or "action type" matches no shape and gives None |
| ActionCommands.RelationWordsNormalise | langgraph_agent/tools/action_validation_execution_tool.py:521-531 | a relation word is accepted exactly when it is in, into, to, on or upon; it becomes in exactly for in and into, and on for the others |
| ActionCommands.ToggleRoundTrip | langgraph_agent/tools/action_validation_execution_tool.py:480-496 | "open X" and "close X" parse back to that toggle of X, for every lower-case name X |
| ActionCommands.MoveRoundTrip | langgraph_agent/tools/action_validation_execution_tool.py:502-531 | "move A w B" and "put A w B" parse back to a move of A into or onto B, the relation normalised from w |
| ActionCommands.ExtractCoreRoundTrip | langgraph_agent/tools/action_validation_execution_tool.py:1359-1376 | "action type N: C" gives back the core action C for every number N and trimmed one-line C |
| ActionCommands.ExtractCoreOfPlainLine | langgraph_agent/tools/action_validation_execution_tool.py:1359-1376 | a line whose trimmed text does not open with the word "action" or "step" and whitespace, in any case, comes back trimmed and otherwise unchanged |
| ActionValidation.ValidateToggle | langgraph_agent/tools/action_validation_execution_tool.py:1046-1158 | open/close is rejected for an unknown object, for an object with no open/closed state, for open on an open object and close on a closed one, and accepted exactly otherwise |
| ActionValidation.AcceptedToggleFlips | langgraph_agent/tools/action_validation_execution_tool.py:1135-1158 | an accepted open finds the object closed and expects it open; an accepted close the reverse |
| ActionValidation.DecideAcceptsIffAllPass | langgraph_agent/tools/action_validation_execution_tool.py:312-374 | the ordered chain of move checks accepts exactly when every check passes, and then returns the move itself |
| ActionValidation.MoveAcceptedIffFeasible | langgraph_agent/tools/action_validation_execution_tool.py:236-402 | a move is accepted exactly when it is feasible in the scene graph, and the accepted verdict names that move |
| ActionValidation.MoveRejections | langgraph_agent/tools/action_validation_execution_tool.py:312-374 | a move is rejected when source and target are both containers, when the target is a cube or mug, when the target is the table and the table status is F, when the edge it would create already exists, and when the source is the table |
| ActionValidation.ValidateParsed | langgraph_agent/tools/action_validation_execution_tool.py:236-260 | a command that does not parse is rejected as unparseable |
| ActionValidation.AcceptedIsParsed | langgraph_agent/tools/action_validation_execution_tool.py:236-402 | an accepted verdict is the parsed command itself, and an accepted move is feasible |
| ActionValidation.SceneChanges | langgraph_agent/tools/action_validation_execution_tool.py:1603-1638 | the edges gained are not in the initial graph, those lost are not in the final graph, and there is a change exactly when the edge sets differ |
| ActionValidation.ChangesReconstructFinal | langgraph_agent/tools/action_validation_execution_tool.py:1603-1638 | removing the lost edges from the initial set and adding the gained ones gives the final set |
| ActionValidation.ValidationTool.constructor | langgraph_agent/tools/action_validation_execution_tool.py:55-86 | a new tool starts with every counter at zero and no stored initial graph |
| ActionValidation.ValidationTool.Execute | langgraph_agent/tools/action_validation_execution_tool.py:116-233 | each call counts one validation; at five or more consecutive failures it answers task failed and resets the counter without validating; an empty query leaves the counter; a rejection adds one and an acceptance resets it to zero |
| ActionValidation.ValidationTool.ResetValidationCount | langgraph_agent/core/agent_reflect.py:1131-1141 | the agent's reset zeroes the validation and failure counters and leaves the rest |
| ActionValidation.FiveRejectionsReachTheLimit | langgraph_agent/tools/action_validation_execution_tool.py:129-148 | each rejection adds one, so five rejections in a row reach the abort threshold from any counter value |
| ActionValidation.AcceptanceClearsFailures | langgraph_agent/tools/action_validation_execution_tool.py:158-179 | after an acceptance the counter equals the number of rejections since |
| SceneAnalysis.StackPass | langgraph_agent/tools/action_validation_execution_tool.py:680-707 | the edge pass yields the blocked set (non-table targets of on-edges), the movable set (all objects minus blocked), the table status and the objects on the table |
| SceneAnalysis.AnalyzeSceneGraph | langgraph_agent/tools/action_validation_execution_tool.py:638-730 | the loops over nodes and edges compute exactly the scene analysis |
| SceneAnalysis.TableIsNeverAnObject | langgraph_agent/tools/action_validation_execution_tool.py:660-678 | table is never among all objects |
| SceneAnalysis.MovablePartition | langgraph_agent/tools/action_validation_execution_tool.py:680-707 | blocked objects are objects, and movable and blocked split all objects |
| SceneAnalysis.BlockedExactly | langgraph_agent/tools/action_validation_execution_tool.py:688-700 | an object is blocked exactly when some on-edge has it, state removed, as its non-table target |
| SceneAnalysis.TableStatusFromLastStatusEdge | langgraph_agent/tools/action_validation_execution_tool.py:692-707 | the table status is T when no status edge is present and otherwise the value of the last status edge |
| SceneAnalysis.TargetKindCheck | langgraph_agent/tools/action_validation_execution_tool.py:791-813 | a target passes the kind check exactly when it is neither a cube nor a mug |
| SceneAnalysis.NodeStateFirstWins | langgraph_agent/tools/action_validation_execution_tool.py:815-859 | the first node naming the object with a state suffix decides its state |
| SceneAnalysis.DrawerRule | langgraph_agent/tools/action_validation_execution_tool.py:861-918 | the low drawer passes only when open with middle and high not open; the middle drawer only when open with high not open; any other drawer only when open; an unknown state counts as not open |
| SceneAnalysis.FirstCover | langgraph_agent/tools/action_validation_execution_tool.py:543-560 | no cover is found exactly when no on-edge puts something on the object |
| SceneAnalysis.MoveRule | langgraph_agent/tools/action_validation_execution_tool.py:535-591 | an object with something on it cannot move; one not in a container can; one in a container can exactly when that container is not closed, passes the drawer lock when it is a drawer, and has nothing on it |
| SceneAnalysis.BlockedObjectsCannotMove | langgraph_agent/tools/action_validation_execution_tool.py:535-560 | every blocked object of the analysis is refused by the move check |
| SceneAnalysis.CoversOfEmptyIffNoCover | langgraph_agent/tools/action_validation_execution_tool.py:543-560 | the list of covering objects is empty exactly when there is no first cover |
| SceneAnalysis.AccessRule | langgraph_agent/tools/action_validation_execution_tool.py:593-636 | a target is accessible exactly when nothing is on it, it is not a closed lid box or drawer, and a drawer passes the drawer lock |
| SceneAnalysis.CubeSourceRule | langgraph_agent/tools/action_validation_execution_tool.py:1168-1229 | a cube whose place is unknown is refused; a cube inside a container may leave it exactly when nothing is on that container |
| SceneAnalysis.CubePlaceContainerFlag | langgraph_agent/tools/action_validation_execution_tool.py:943-955 | a cube found somewhere other than the table is marked as inside a container |
| SceneAnalysis.CountCubesIn | langgraph_agent/tools/action_validation_execution_tool.py:994-1001 | the loop counts exactly the cubes that in-edges put into the target |
| SceneAnalysis.CubeCapacityRule | langgraph_agent/tools/action_validation_execution_tool.py:994-1005 | with both containers clear, placing a cube passes exactly when fewer than ten cubes are already in the target |
| StabilityTracking.MarkedRunFrom | langgraph_agent/utils/scene_graph_manager.py:146-165 | no run is found exactly when every occurrence of the marker from the start position is followed by no character of the class |
| StabilityTracking.DigitParts | langgraph_agent/utils/scene_graph_manager.py:152-156 | only all-digit parts become nodes, each a numbered node, never more than there are parts |
| StabilityTracking.ConvertLegacyText | langgraph_agent/utils/scene_graph_manager.py:135-180 | a converted legacy text always has exactly the nodes and edges keys, and no other |
| StabilityTracking.DocEquality | langgraph_agent/utils/scene_graph_manager.py:279 | two scene documents are equal exactly when, as dictionaries, they have the same keys and the same value under every key, the timestamp and other extra keys included |
| StabilityTracking.ConvertTextToJson | langgraph_agent/utils/scene_graph_manager.py:114-133 | text lacking either marker gives an empty nodes/edges graph; text with both goes to the legacy parser |
| StabilityTracking.ParseAndConvert | langgraph_agent/utils/scene_graph_manager.py:76-104 | empty or whitespace-only text gives None; valid JSON is returned as it is; other text goes to the text conversion |
| StabilityTracking.StrippedNonEmptyKeepsOrder | langgraph_agent/utils/scene_graph_manager.py:159-170 | the edges are the trimmed non-empty comma parts in their order: the first such part heads the list |
| StabilityTracking.DigitPartsOfNumber | langgraph_agent/utils/scene_graph_manager.py:152-156 | a part that is a number becomes that numbered node, in front of the rest |
| StabilityTracking.StabilityStepKeeps | langgraph_agent/utils/scene_graph_manager.py:273-286 | one stability step keeps the history invariant, leaves a non-empty history of copies of the new graph, adds one to the count for a repeated graph and resets to one for a different graph |
| StabilityTracking.IdenticalFramesCount | langgraph_agent/utils/scene_graph_manager.py:273-286 | n identical frames add n to the stable count and grow the history only up to its maximum size |
| StabilityTracking.DistinctFramesStayAtOne | langgraph_agent/utils/scene_graph_manager.py:273-286 | a run of frames each unlike the one before leaves the count at 1 and the history at the last frame alone |
| StabilityTracking.TimestampedFramesRestart | langgraph_agent/utils/scene_graph_manager.py:279-286 | two frames alike but for their timestamp are different, and the second restarts the count at 1 |
| StabilityTracking.SettledAfterThreshold | langgraph_agent/utils/scene_graph_manager.py:246-286 | enough identical frames bring the count to the threshold with that graph at the head of the history |
| StabilityTracking.SceneGraphManager.constructor | langgraph_agent/utils/scene_graph_manager.py:23-37 | a new manager holds an empty graph, no history, zero counters and is not waiting |
| StabilityTracking.SceneGraphManager.CheckStability | langgraph_agent/utils/scene_graph_manager.py:273-286 | the history and count become one stability step of the old ones; the history is non-empty and every entry is the new graph; nothing else changes |
| StabilityTracking.SceneGraphManager.UpdateSceneGraph | langgraph_agent/utils/scene_graph_manager.py:39-75 | non-string non-dict input changes nothing; only a non-empty parse result replaces the graph and counts a success, anything else counts an error; the stability check runs only while waiting |
| StabilityTracking.SceneGraphManager.CheckUpdateStatus | langgraph_agent/utils/scene_graph_manager.py:246-271 | not waiting reports not stable and no change; while waiting it is stable exactly at or above the threshold; a real change needs stability and a first history entry unlike the reference |
| StabilityTracking.SceneGraphManager.StartWaitingForUpdate | langgraph_agent/utils/scene_graph_manager.py:230-237 | waiting starts with a zero count, an empty history and the reference stored |
| StabilityTracking.SceneGraphManager.StopWaitingForUpdate | langgraph_agent/utils/scene_graph_manager.py:239-244 | waiting, count, history and reference are cleared and nothing else changes |
| StabilityTracking.SceneGraphManager.ResetStabilityTracking | langgraph_agent/utils/scene_graph_manager.py:352-357 | waiting, count, history and reference are cleared and nothing else changes |
| StabilityTracking.SceneGraphManager.GetLatestSceneGraph | langgraph_agent/utils/scene_graph_manager.py:219-228 | the not-available answer is given exactly when the current graph is empty, and otherwise the current graph |
| AgentText.RemoveThinkBlocks | langgraph_agent/core/agent_reflect.py:264 | text without a think block is unchanged, and removal never lengthens the text |
| AgentText.RemoveOneThinkBlock | langgraph_agent/core/agent_reflect.py:264 | a think block and everything inside it is removed, the text around it kept |
| AgentText.LinePieces | langgraph_agent/core/agent_reflect.py:270-271 | splitting on line breaks always gives at least one piece |
| AgentText.ChunkLines | langgraph_agent/core/agent_reflect.py:268-274 | the kept lines of the chunks are non-empty and already trimmed |
| AgentText.Candidates | langgraph_agent/core/agent_reflect.py:264-274 | every candidate line is non-empty and trimmed |
| AgentText.FinalName | langgraph_agent/core/agent_reflect.py:277-278 | a matched name is non-empty and made only of word characters, slashes and hyphens |
| AgentText.FirstProposal | langgraph_agent/core/agent_reflect.py:280-311 | no proposal exactly when no line matches a shape; otherwise the proposal of the first matching line |
| AgentText.CanonicalName | langgraph_agent/core/agent_reflect.py:254-262 | drawer_high, drawer_middle and drawer_low become short_cabinet/<name>; every other name is unchanged |
| AgentText.CanonicalNameIdempotent | langgraph_agent/core/agent_reflect.py:254-262 | canonicalising twice is canonicalising once |
| AgentText.ParseNextActionFromText | langgraph_agent/core/agent_reflect.py:243-311 | an action is returned exactly when some candidate line matches the open/close or the move shape |
| AgentText.MoveLineRoundTrip | langgraph_agent/core/agent_reflect.py:278 | "move/put/Put A p B" matches the move shape with A, p and B |
| AgentText.ToggleLineRoundTrip | langgraph_agent/core/agent_reflect.py:277 | "open X" or "close X" matches the open/close shape with X |
| AgentText.SingleLineCandidates | langgraph_agent/core/agent_reflect.py:264-274 | a one-line reply of names and single spaces is its own only candidate |
| AgentText.ReplyOfOneLine | langgraph_agent/core/agent_reflect.py:280-311 | a one-line reply yields the emitted form of its own proposal, or None |
| AgentText.MoveReplyIsParsed | langgraph_agent/core/agent_reflect.py:298-309 | a move reply comes out as "move <obj> <prep> <container>" with both names canonicalised, whatever the verb |
| AgentText.EmittedMoveIsUnderstood | langgraph_agent/core/agent_reflect.py:298-309 | the emitted move is parsed by the validator as that move with the preposition normalised |
| AgentText.EmittedToggleIsUnderstood | langgraph_agent/core/agent_reflect.py:286-296 | the emitted open/close is parsed by the validator as that toggle of the canonical name |
| AgentText.NumberedTask | langgraph_agent/core/agent_reflect.py:1154-1155 | a matched task text is trimmed |
| AgentText.ExtractCfgTask | langgraph_agent/core/agent_reflect.py:1144-1155 | the extracted task is empty or trimmed |
| AgentText.CfgTaskRoundTrip | langgraph_agent/core/agent_reflect.py:1144-1155 | "配置_N: T" gives back T for every number N and trimmed one-line T |
| AgentText.FirstRetryDelay | langgraph_agent/core/agent_reflect.py:1510-1512 | no delay is found exactly when no position from the start holds a retry-delay hint |
| AgentText.ExtractRetryDelay | langgraph_agent/core/agent_reflect.py:1500-1514 | the first hinted number of seconds, or the configured base delay when there is none |
| AgentText.RetryDelayRoundTrip | langgraph_agent/core/agent_reflect.py:1510-1512 | "retry_delay { seconds: N" is read back as N |
| AgentText.StatusCodesClassify | langgraph_agent/core/agent_reflect.py:1459-1498 | an error mentioning 429 is a rate-limit error and one mentioning 500 a server error |
| AgentControl.FeedbackIsNotJson | langgraph_agent/core/agent_reflect.py:595-668 | the feedback text built for the model never starts like a JSON document |
| AgentControl.SuccessPrefix | langgraph_agent/core/agent_reflect.py:618-620 | an execution success is reported as "The previous action '<query>' was executed successfully." |
| AgentControl.ValidationPrefix | langgraph_agent/core/agent_reflect.py:622-625 | a validation failure is reported as "The action '<query>' is invalid, reason: " with the reason or its default |
| AgentControl.ShouldExecuteAction | langgraph_agent/core/agent_reflect.py:929-959 | the route is execute exactly when some tool call of the last message is named ValidateAndExecuteAction, and end otherwise |
| AgentControl.LastToolMessageIsLast | langgraph_agent/core/agent_reflect.py:879-883 | the last tool message is the last message named ValidateAndExecuteAction, and there is none exactly when no message has that name |
| AgentControl.ShouldContinueAfterExecution | langgraph_agent/core/agent_reflect.py:857-927 | the route is continue or end; a TASK_FAILED note anywhere or the state's failure flag ends the run |
| AgentControl.LastToolMessageOfAppend | langgraph_agent/core/agent_reflect.py:879-883 | a newly appended tool message is the one inspected |
| AgentControl.ReportedFailureEndsRun | langgraph_agent/core/agent_reflect.py:885-907 | a last tool message reporting validation_failed, task_failed or an invalid action ends the run |
| AgentControl.ValidationFeedbackShape | langgraph_agent/core/agent_reflect.py:622-625 | a validation failure's feedback has the text shape the routing recognises as an invalid action |
| AgentControl.ValidationFailureEndsRun | langgraph_agent/core/agent_reflect.py:885-907 | a validation failure fed back to the model ends the run |
| AgentControl.FailedRecordEndsRun | langgraph_agent/core/agent_reflect.py:915-922 | a last execution record of a failed validate_execute ends the run |
| AgentControl.SuccessContinues | langgraph_agent/core/agent_reflect.py:857-927 | an execution success with no failure note, flag or failed record continues the run |
| AgentControl.GuardStepKeeps | langgraph_agent/core/agent_reflect.py:699-749 | a guard step keeps the repeat count below five |
| AgentControl.GuardRun | langgraph_agent/core/agent_reflect.py:699-749 | a run of calls gets exactly one verdict per call |
| AgentControl.ProceedRemembers | langgraph_agent/core/agent_reflect.py:722-749 | a call that runs is remembered as the last call |
| AgentControl.ArgsTextInjective | langgraph_agent/core/agent_reflect.py:699-714 | the printed arguments of two different queries differ |
| AgentControl.AlternationRejected | langgraph_agent/core/agent_reflect.py:699-720 | after a and then a different b both ran, repeating a is rejected as equal to the call before last |
| AgentControl.SixIdenticalCallsRejected | langgraph_agent/core/agent_reflect.py:722-730 | among six identical calls in a row at least one is rejected |
| AgentControl.RepeatGuard.constructor | langgraph_agent/core/agent_reflect.py:159-197 | a new agent remembers no calls, has a zero count and no execution records |
| AgentControl.RepeatGuard.CallValidateExecute | langgraph_agent/core/agent_reflect.py:670-832 | args equal to the call before last are rejected and the guard is cleared; args equal to the last call add one and run below five, are rejected at five with the last call and count cleared and the one before kept; other args shift the memory and zero the count; each call adds one execution record |
| AgentControl.RepeatGuard.ResetGuard | langgraph_agent/core/agent_reflect.py:1131-1141 | resetting the validation count clears the guard only when the tool is present |
| AgentControl.RepeatGuard.ResetAfterReport | langgraph_agent/core/agent_reflect.py:1527-1528 | saving a report forgets the last call and its count but keeps the call before last |
| AgentControl.RepeatGuard.ResetExecutionRecords | langgraph_agent/core/agent_reflect.py:1690-1692 | the execution records are emptied and the guard is kept |
| AgentControl.StepAfter | langgraph_agent/core/agent_reflect.py:1224-1280 | a retry happens only before the last attempt and never waits longer than the maximum delay, and only after a timeout with timeout retries on or an error |
| AgentControl.ProcessUserInput | langgraph_agent/core/agent_reflect.py:1156-1292 | an agent that is not ready answers at once; otherwise the outcome and delays are those of the retry run |
| AgentControl.RetryDelaysBounded | langgraph_agent/core/agent_reflect.py:1224-1264 | every wait of a retry run is at most the maximum delay, and there are at most as many waits as retries left |
| AgentControl.ExhaustedOnlyWithoutAttempts | langgraph_agent/core/agent_reflect.py:1180-1292 | the run reports exhausted retries exactly when it starts past the last attempt |
| AgentControl.RateLimitHonoursSuggestion | langgraph_agent/core/agent_reflect.py:1240-1250 | on a rate-limit error the wait is min(max(suggested, base times factor to the attempt), max_delay) |
| AgentControl.AlwaysTimingOut | langgraph_agent/core/agent_reflect.py:1225-1235 | when every attempt times out the run gives up after one wait per remaining retry, each min(base times factor to the attempt, max_delay) |
| AgentControl.ConfiguredBackoff | langgraph_agent/config.py:76-83 | with the configured base 15, factor 2 and cap 120 the waits are 15, 30, 60, 120 and then 120 |
| SceneSummary.TableSceneIsDesktop | langgraph_agent/tools/scene_graph_tool.py:92-98 | a scene whose first node is a string and which lists table is in the desktop format |
| SceneSummary.ForeignNamesAreLegacy | langgraph_agent/tools/scene_graph_tool.py:92-98 | a scene whose first node is a string and which lists none of the desktop names is not in the desktop format |
| SceneSummary.BoxNamed | langgraph_agent/tools/scene_graph_tool.py:188 | a recognised box name is the name of that box |
| SceneSummary.BoxNamedOfName | langgraph_agent/tools/scene_graph_tool.py:188 | each of the three boxes is recognised by its name |
| SceneSummary.OnExcludesIn | langgraph_agent/tools/scene_graph_tool.py:199-217 | an edge recorded as an on-edge is never also recorded as an in-edge |
| SceneSummary.TalliedIsMap | langgraph_agent/tools/scene_graph_tool.py:195-217 | a dictionary built in step with the edges is the one the edges determine |
| SceneSummary.Append | langgraph_agent/tools/scene_graph_tool.py:206-208 | appending to a box's list adds the object at its end, creates the list when missing and leaves the other boxes alone |
| SceneSummary.TallyStep | langgraph_agent/tools/scene_graph_tool.py:195-217 | recording one more edge keeps the dictionary in step with the longer edge list |
| SceneSummary.PlacedNonEmpty | langgraph_agent/tools/scene_graph_tool.py:195-217 | a box's list is non-empty exactly when some edge records an object for it |
| SceneSummary.OnObjectsNonEmpty | langgraph_agent/tools/scene_graph_tool.py:199-208 | something is on a box exactly when some string on-edge names that box as its target |
| SceneSummary.Kept | langgraph_agent/tools/scene_graph_tool.py:219-240 | the kept boxes are boxes of the order that pass the test, never more of them |
| SceneSummary.Names | langgraph_agent/tools/scene_graph_tool.py:243-244 | one name per box, in order |
| SceneSummary.CountRelations | langgraph_agent/tools/scene_graph_tool.py:191-217 | the edge loop builds exactly the on-box and in-box dictionaries and the on-table set |
| SceneSummary.RelationStep | langgraph_agent/tools/scene_graph_tool.py:195-217 | one edge step keeps both dictionaries and the set in step with the edges read so far |
| SceneSummary.CountEdge | langgraph_agent/tools/scene_graph_tool.py:199-217 | an on-edge is recorded as on, otherwise an in-edge as in, and nothing else changes |
| SceneSummary.AnalyzeAccessibility | langgraph_agent/tools/scene_graph_tool.py:178-251 | the method computes exactly the accessibility summary for the given iteration order of the boxes |
| SceneSummary.OpenIsAccessible | langgraph_agent/tools/scene_graph_tool.py:223-234 | a box is open in the dictionaries exactly when it is accessible by the edges |
| SceneSummary.SplitBoxes | langgraph_agent/tools/scene_graph_tool.py:219-234 | each box of the order goes to accessible exactly when nothing is on it and fewer than three objects are in it, and to blocked otherwise; an in-box entry is added per accessible box |
| SceneSummary.VisitBox | langgraph_agent/tools/scene_graph_tool.py:223-234 | one box is appended to accessible with its in-box entry, or to blocked |
| SceneSummary.BoxTally | langgraph_agent/tools/scene_graph_tool.py:224-229 | a box has objects on top exactly when some on-edge names it, and its in-list is the objects in-edges put into it |
| SceneSummary.AppendSurfaceEntries | langgraph_agent/tools/scene_graph_tool.py:238-240 | after the in-box entries, one surface entry per box that is not blocked, in the same order |
| SceneSummary.AllBoxesVisited | langgraph_agent/tools/scene_graph_tool.py:223 | the iteration visits every one of the three boxes |
| SceneSummary.SortByName | langgraph_agent/tools/scene_graph_tool.py:243-244 | the result is the box names in name order |
| SceneSummary.SortedFilter | langgraph_agent/tools/scene_graph_tool.py:243-244 | sorting the boxes found accessible (or blocked) gives the same list whatever the iteration order |
| SceneSummary.FilterKeepsOrder | langgraph_agent/tools/scene_graph_tool.py:243-244 | filtering a name-ordered list keeps it in name order |
| SceneSummary.NamesSorted | langgraph_agent/tools/scene_graph_tool.py:243-244 | the names of a name-ordered list of boxes are strictly sorted |
| SceneSummary.AccessibilitySorted | langgraph_agent/tools/scene_graph_tool.py:243-244 | accessible_boxes and blocked_boxes are both returned sorted |
| SceneSummary.AccessibilityPartition | langgraph_agent/tools/scene_graph_tool.py:219-244 | every box is in exactly one of accessible_boxes and blocked_boxes; a box with anything on it is blocked; an unobstructed box is accessible exactly when fewer than three edges put something in it |
| SceneSummary.PlacementCount | langgraph_agent/tools/scene_graph_tool.py:231-240 | placement_locations holds the table entry plus one in-box and one surface entry per accessible box |
| SceneSummary.StringEdges | langgraph_agent/tools/scene_graph_tool.py:123-126 | only string edges are kept, in order |
| SceneSummary.LegacyEdgeList | langgraph_agent/tools/scene_graph_tool.py:160-166 | the legacy edge list never has more entries than there are edges |
| SceneSummary.LegacyNodeIds | langgraph_agent/tools/scene_graph_tool.py:153-158 | one node id per node |
| SceneSummary.RenderAll | langgraph_agent/tools/scene_graph_tool.py:121 | one rendered string per node, each the string form of that node |
| SceneSummary.AnalyzeSceneGraph | langgraph_agent/tools/scene_graph_tool.py:61-136 | the desktop summary is chosen exactly for the desktop format, and it counts the nodes, lists one id per node and keeps the string edges |
| SceneSummary.SceneToolExecute | langgraph_agent/tools/scene_graph_tool.py:31-59 | a returned result is always the raw text the getter produced |
| SceneSummary.SceneToolFailsOnlyOnLegacy | langgraph_agent/tools/scene_graph_tool.py:45-59 | the tool call fails exactly when the graph is available and decodes to a legacy-format scene, whose analysis calls an undefined method |
| SceneSummary.LegacyKeepsPlainEdges | langgraph_agent/tools/scene_graph_tool.py:160-166 | string edges without '>' pass through the legacy renderer unchanged |
| ConfigStore.MaxNumber | 3Ddesk/server_setting/config_server.py:107-108 | the largest existing number, a missing number counting as 0, and 0 for no configs |
| ConfigStore.NameFor | 3Ddesk/server_setting/config_server.py:112-113 | the name becomes 配置_<number> when it is missing, empty or already starts with 配置_, and any other name is kept |
| ConfigStore.NextNumberIsFresh | 3Ddesk/server_setting/config_server.py:107-111 | the new number is larger than every existing number, so no config has it, and it is 1 for an empty list |
| ConfigStore.Find | 3Ddesk/server_setting/config_server.py:150-155 | the index of the first config with the number, and none exactly when no config has it |
| ConfigStore.Without | 3Ddesk/server_setting/config_server.py:212-213 | the configs without the number, every other config kept; the list is as long as before exactly when none had the number |
| ConfigStore.InsertByNumber | 3Ddesk/server_setting/config_server.py:188 | inserting adds exactly that config |
| ConfigStore.InsertKeepsSorted | 3Ddesk/server_setting/config_server.py:188 | inserting into a list sorted by number keeps it sorted |
| ConfigStore.SortByNumber | 3Ddesk/server_setting/config_server.py:188 | the result is sorted by number and holds exactly the same configs |
| ConfigStore.ConfigServer.Save | 3Ddesk/server_setting/config_server.py:95-141 | a successful write appends the new config with the next number and its name at the end, leaving the others unchanged; a failed write changes nothing |
| ConfigStore.ConfigServer.Load | 3Ddesk/server_setting/config_server.py:143-179 | a non-integer segment is an invalid number; otherwise the first config with that number, or not found |
| ConfigStore.ConfigServer.List | 3Ddesk/server_setting/config_server.py:181-202 | the configs sorted by number, with the count equal to their number |
| ConfigStore.ConfigServer.Delete | 3Ddesk/server_setting/config_server.py:204-244 | a non-integer segment is an invalid number; when no config has the number it is not found and nothing is written; otherwise, when the write succeeds, every config with that number is removed and the rest kept in order |
| ConfigStore.MaxOrZero | 3Ddesk/server_setting/config_server.py:107-108 | max with default 0 bounds every number |
| ConfigStore.MaxOfNumbers | 3Ddesk/server_setting/config_server.py:107-108 | the maximum over the list of numbers is the largest config number |
| ConfigStore.SavedIsFound | 3Ddesk/server_setting/config_server.py:119-120 | a config just saved is found under its new number, at the end |
| ConfigStore.FindAfterAbsent | 3Ddesk/server_setting/config_server.py:150-155 | a config appended with a number no other config has is the one found |
| ConfigStore.DeletedIsGone | 3Ddesk/server_setting/config_server.py:212-213 | after delete no config has the number, and any other number is found exactly when it was before |
| ToolStats.RecordedQuery | langgraph_agent/tools/base_tool.py:69 | the recorded query is a prefix of the query of at most 200 characters, the whole query when it is short enough, and empty for an empty query |
| ToolStats.CallResult | langgraph_agent/tools/base_tool.py:37-60 | a normal return passes through unchanged; an exception becomes "Tool execution failed: <message>" |
| ToolStats.RecordOf | langgraph_agent/tools/base_tool.py:55-71 | the record has success exactly for a normal return, the exception message or an empty error message, and the truncated query |
| ToolStats.Successes | langgraph_agent/tools/base_tool.py:83 | never more successes than records |
| ToolStats.SuccessRate | langgraph_agent/tools/base_tool.py:83 | the success rate lies between 0 and 1, and is 0 for an empty history |
| ToolStats.SuccessesOfAppend | langgraph_agent/tools/base_tool.py:64-71 | one more call adds one success exactly when it returned normally |
| ToolStats.UniformHistories | langgraph_agent/tools/base_tool.py:83 | in a history of successes every record counts as a success, and in one of failures none does |
| ToolStats.ToolBookkeeping.constructor | langgraph_agent/tools/base_tool.py:16-21 | a new tool has no calls and an empty history |
| ToolStats.ToolBookkeeping.Call | langgraph_agent/tools/base_tool.py:28-73 | each call adds exactly one to the call count and appends exactly one record, keeping the count equal to the history length, and returns the call result |
| ToolStats.ToolBookkeeping.GetStats | langgraph_agent/tools/base_tool.py:75-84 | the call count equals the history length and the success rate lies between 0 and 1 |
| ToolStats.ToolBookkeeping.ResetStats | langgraph_agent/tools/base_tool.py:86-90 | the call count is zero and the history empty |
| ReportGoals.ClassifyTaskType | report_analysis/Auto_extract_report_data_batch.py:18-60 | the task type is always 1 or 2, never the documented 0 |
| ReportGoals.ClassifyTypeTwo | report_analysis/Auto_extract_report_data_batch.py:33-60 | type 2 exactly for a by-colour drawer goal, a corresponding-boxes goal (both mentioning cube and mug) or a different-drawer goal mentioning milk, popcorn or book, all on the lowered goal |
| ReportGoals.CorrespondingPhraseSubsumed | report_analysis/Auto_extract_report_data_batch.py:43 | the second test of the corresponding-boxes condition adds nothing to the first |
| ReportGoals.ExtractConfigNumber | report_analysis/Auto_extract_report_data_batch.py:77-85 | a non-empty result is a prefix of the input starting with 配置 and ending in a digit; an input that starts with a full label gives that label |
| ReportGoals.LabelTail | report_analysis/Auto_extract_report_data_batch.py:82 | the matched label tail fits in the text and ends in a digit |
| ReportGoals.LabelStripped | report_analysis/Auto_extract_report_data_batch.py:84 | a matched label is already trimmed and starts with 配置 |
| ReportGoals.ConfigNumberRoundTrip | report_analysis/Auto_extract_report_data_batch.py:77-85 | "配置_N" followed by anything but a digit gives back "配置_N" |
| ReportGoals.FirstDigitRun | report_analysis/Auto_extract_report_data_batch.py:1472-1474 | a text with no digit has no digit run |
| ReportGoals.SortKey | report_analysis/Auto_extract_report_data_batch.py:1467-1474 | an empty config number or one without digits sorts under 999999 |
| ReportGoals.FirstDigitRunAfter | report_analysis/Auto_extract_report_data_batch.py:1472-1474 | the first digit run is the value of the first maximal run of digits |
| ReportGoals.SortKeyOfLabel | report_analysis/Auto_extract_report_data_batch.py:1467-1474 | the label 配置_N sorts under N |
| ReportGoals.InputSortsByConfig | report_analysis/Auto_extract_report_data_batch.py:77-85 | the label extracted from "配置_N…" sorts under N |
| ReportScene.EdgeMatch | report_analysis/Auto_extract_report_data_batch.py:318 | a matched edge gives a non-empty word-character item followed by (in) or (on) and a non-empty path location |
| ReportScene.EdgeMatchOf | report_analysis/Auto_extract_report_data_batch.py:318 | "item(rel)loc" followed by a non-path character matches with that item and location |
| ReportScene.Keys | report_analysis/Auto_extract_report_data_batch.py:307-314 | the tracked names are exactly the nodes that pass the test, each once, in first-occurrence order |
| ReportScene.LocationFromEdge | report_analysis/Auto_extract_report_data_batch.py:316-326 | a tracked location comes from some edge that matches with that name |
| ReportScene.NoEdgeNoLocation | report_analysis/Auto_extract_report_data_batch.py:316-326 | an object no edge matches keeps no location |
| ReportScene.LastEdgeWins | report_analysis/Auto_extract_report_data_batch.py:316-326 | the last matching edge of an object decides its location |
| ReportScene.Objects | report_analysis/Auto_extract_report_data_batch.py:306-337 | the tracked objects are exactly the cube and mug nodes, each once |
| ReportScene.Allowed | report_analysis/Auto_extract_report_data_batch.py:344-345 | the allowed items are exactly the tracked objects |
| ReportScene.TrackObjects | report_analysis/Auto_extract_report_data_batch.py:303-337 | the node loop tracks the cubes and mugs, and the edge loop gives each its location |
| ReportScene.TrackNodes | report_analysis/Auto_extract_report_data_batch.py:307-314 | the node loop keeps the cube names and the mug names, each once, and maps exactly those |
| ReportScene.PlacedAt | report_analysis/Auto_extract_report_data_batch.py:353-357 | the count of objects found at a drawer layer or box never exceeds the objects checked |
| ReportScene.CountPlacedAt | report_analysis/Auto_extract_report_data_batch.py:353-357 | the counting loop of the layer and box judges gives exactly the number of objects located at the drawer layer or box |
| ReportScene.LocateObjects | report_analysis/Auto_extract_report_data_batch.py:316-326 | every tracked object gets the location of its last matching edge and no other key is added |
| LayerJudge.LayerScore | report_analysis/Auto_extract_report_data_batch.py:370-385 | a layer scores at most 2; 2 exactly for two correct objects and nothing unrelated, 1 exactly for one and nothing unrelated, and 0 otherwise, including three or more |
| LayerJudge.ByLayers | report_analysis/Auto_extract_report_data_batch.py:287-430 | the verdict fails exactly when it carries an error, and the total is always 6 |
| LayerJudge.JudgeByLayers | report_analysis/Auto_extract_report_data_batch.py:303-430 | the judge's loops compute exactly the layer verdict |
| LayerJudge.ScoreLayers | report_analysis/Auto_extract_report_data_batch.py:347-387 | the loop over the three layers sums exactly the layer scores and the objects placed in the layers |
| LayerJudge.CountUnrelated | report_analysis/Auto_extract_report_data_batch.py:360-367 | the loop counts exactly the matching edges that put an untracked item into the layer |
| LayerJudge.InDrawers | report_analysis/Auto_extract_report_data_batch.py:409 | never more objects in the layers than tracked objects |
| LayerJudge.InDrawersSnoc | report_analysis/Auto_extract_report_data_batch.py:347-357 | one more distinct layer adds the objects placed in it |
| LayerJudge.PlacedOverDistinct | report_analysis/Auto_extract_report_data_batch.py:357 | over distinct layers the running correct count is the number of objects in some layer |
| LayerJudge.InDrawersAll | report_analysis/Auto_extract_report_data_batch.py:409 | every object is counted exactly when every object's location is one of the layers |
| LayerJudge.ScoreOverFull | report_analysis/Auto_extract_report_data_batch.py:387-409 | the total is at most twice the layer count, and reaches it exactly when every layer scores 2 |
| LayerJudge.LayersDistinct | report_analysis/Auto_extract_report_data_batch.py:329-333 | the three layer names are distinct |
| LayerJudge.AllInLayers | report_analysis/Auto_extract_report_data_batch.py:409 | the correct count equals the number of tracked objects exactly when every tracked object sits in one of the three layers |
| LayerJudge.LayerSuccess | report_analysis/Auto_extract_report_data_batch.py:409 | success exactly when every layer holds two tracked objects and nothing unrelated and every tracked object is in a layer; the score is at most 6 |
| LayerJudge.LayerSuccessSix | report_analysis/Auto_extract_report_data_batch.py:409 | a success means exactly six tracked objects |
| LayerJudge.PlacedOverLayers | report_analysis/Auto_extract_report_data_batch.py:347-357 | the correct count is the sum over low, middle and high |
| LayerExamples.ShortVerdict | report_analysis/Auto_extract_report_data_batch.py:409-428 | a total below 6 fails with score s out of 6 and that message |
| LayerExamples.FullVerdict | report_analysis/Auto_extract_report_data_batch.py:409-425 | a total of 6 with every object in a layer succeeds with 6 out of 6 |
| LayerExamples.FullLayers | report_analysis/Auto_extract_report_data_batch.py:347-425 | two objects and nothing unrelated in each layer, six objects in all, gives 6 out of 6 and success |
| LayerExamples.LayersHalfFull | report_analysis/Auto_extract_report_data_batch.py:347-428 | one object and nothing unrelated in each layer gives 3 out of 6 |
| LayerExamples.LowLayerSpoiled | report_analysis/Auto_extract_report_data_batch.py:347-428 | an unrelated item zeroes the low layer: 4 out of 6 |
| LayerExamples.EmptyLayers | report_analysis/Auto_extract_report_data_batch.py:347-428 | nothing in any layer gives 0 out of 6 |
| LayerExamples.TwoPerLayerScores | report_analysis/Auto_extract_report_data_batch.py:1684-1709 | two cubes or mugs per layer over six distinct names scores 6 out of 6, a success |
| LayerExamples.OnePerLayerScores | report_analysis/Auto_extract_report_data_batch.py:1711-1733 | one object per layer over three names scores 3 out of 6 |
| LayerExamples.StrayScores | report_analysis/Auto_extract_report_data_batch.py:1735-1762 | the same six objects plus an untracked item in the low drawer score 4 out of 6 |
| LayerExamples.OnTableScores | report_analysis/Auto_extract_report_data_batch.py:1764-1789 | six objects on the table score 0 out of 6 |
| LayerExamples.Test1Judged | report_analysis/Auto_extract_report_data_batch.py:1684-1709 | the first built-in example scores 6 out of 6 and succeeds |
| LayerExamples.Test2Judged | report_analysis/Auto_extract_report_data_batch.py:1711-1733 | the second built-in example scores 3 out of 6 |
| LayerExamples.Test3Judged | report_analysis/Auto_extract_report_data_batch.py:1735-1762 | the third built-in example scores 4 out of 6, the table item zeroing drawer_low |
| LayerExamples.Test4Judged | report_analysis/Auto_extract_report_data_batch.py:1764-1789 | the fourth built-in example scores 0 out of 6 |
| LayerExamples.EdgesOf | report_analysis/Auto_extract_report_data_batch.py:1691-1698 | one edge per item |
| LayerExamples.KeysOfDistinct | report_analysis/Auto_extract_report_data_batch.py:307-314 | over distinct nodes, the tracked keys are the nodes that pass the test, in order |
| LayerExamples.SixObjects | report_analysis/Auto_extract_report_data_batch.py:1686-1690 | over the six example names the tracked objects are the three cubes, then the three mugs |
| LayerExamples.ThreeObjects | report_analysis/Auto_extract_report_data_batch.py:1713-1717 | over the three names the tracked objects are the two cubes, then the mug |
| LayerExamples.StrayObjects | report_analysis/Auto_extract_report_data_batch.py:1737-1741 | the table node is not tracked |
| LayerExamples.TableUntracked | report_analysis/Auto_extract_report_data_batch.py:310-314 | table is neither a cube nor a mug name |
| DrawerGoals.CleanWord | report_analysis/Auto_extract_report_data_batch.py:453-455 | a lower-case word comes through the item cleaning unchanged |
| DrawerGoals.CleanTheWord | report_analysis/Auto_extract_report_data_batch.py:453-455 | "the w" is cleaned to w |
| DrawerGoals.CommaSeparator | report_analysis/Auto_extract_report_data_batch.py:451 | ", " before a word other than and is a two-character separator |
| DrawerGoals.CommaAndSeparator | report_analysis/Auto_extract_report_data_batch.py:451 | ", and " is a six-character separator |
| DrawerGoals.SplitThree | report_analysis/Auto_extract_report_data_batch.py:451 | "a, the b, and the c" splits into a, "the b" and "the c" |
| DrawerGoals.CleanThree | report_analysis/Auto_extract_report_data_batch.py:452-455 | cleaning those three pieces gives a, b and c |
| DrawerGoals.PlaceMatchFound | report_analysis/Auto_extract_report_data_batch.py:447 | the lazy search on "place the <list> into different drawer…" finds the list at the start |
| DrawerGoals.ItemsOfMatch | report_analysis/Auto_extract_report_data_batch.py:447-455 | the items to place are the cleaned pieces of the matched list |
| DrawerGoals.ItemsToPlaceThree | report_analysis/Auto_extract_report_data_batch.py:435-455 | "place the a, the b, and the c into different drawer layers", in any case, names exactly a, b and c |
| DrawerItems.LazyGroup | report_analysis/Auto_extract_report_data_batch.py:447 | a lazily matched item list is never empty |
| DrawerItems.SeparatorLen | report_analysis/Auto_extract_report_data_batch.py:451 | a separator never runs past the text |
| DrawerItems.NextSeparator | report_analysis/Auto_extract_report_data_batch.py:451 | a separator found is at or after the start and really is a separator |
| DrawerItems.SplitItems | report_analysis/Auto_extract_report_data_batch.py:451 | splitting always gives at least one piece |
| DrawerItems.CleanItems | report_analysis/Auto_extract_report_data_batch.py:452-455 | the cleaned items are all non-empty |
| DrawerItems.CommonIn | report_analysis/Auto_extract_report_data_batch.py:458-461 | the fallback items are exactly the common items the lowered goal contains |
| DrawerItems.ItemsToPlace | report_analysis/Auto_extract_report_data_batch.py:441-461 | every item is non-empty; without the place pattern the items are exactly the common items the goal mentions |
| DrawerItems.FirstItem | report_analysis/Auto_extract_report_data_batch.py:513-517 | an edge name stands for the first named item it equals or ends with "_<item>", and for none exactly when it matches no item |
| DrawerItems.Intruders | report_analysis/Auto_extract_report_data_batch.py:531-538 | every intruder is outside the allowed names, and there are none exactly when no edge puts an unlisted name into a drawer |
| DrawerItems.Lookup | report_analysis/Auto_extract_report_data_batch.py:523 | an item has a location exactly when it is a key of the item-location dictionary |
| DrawerItems.AssignFacts | report_analysis/Auto_extract_report_data_batch.py:523 | assigning a location keeps insertion order for an existing key, appends a new key, and changes only that key's value |
| DrawerItems.ItemLocationsKeys | report_analysis/Auto_extract_report_data_batch.py:504-523 | the located items are distinct named items |
| DrawerItems.LastDrawerEdgeWins | report_analysis/Auto_extract_report_data_batch.py:504-523 | an item's location is that of the last drawer edge naming it |
| DrawerItems.NoDrawerEdgeNoLocation | report_analysis/Auto_extract_report_data_batch.py:504-523 | an item no drawer edge names is not located |
| DrawerItems.AddTo | report_analysis/Auto_extract_report_data_batch.py:556-560 | adding to a drawer's group adds a group only for a new drawer |
| DrawerItems.ScoreShared | report_analysis/Auto_extract_report_data_batch.py:569-577 | each drawer scores a full point alone or half a point shared, so the score plus half a point per shared drawer is one point per drawer |
| DrawerItems.AddToFacts | report_analysis/Auto_extract_report_data_batch.py:556-560 | grouping one more item keeps every group non-empty, adds one to the size and the drawer to the groups, and shares a drawer exactly when one was shared or the drawer already had a group |
| DrawerItems.GroupsOfFacts | report_analysis/Auto_extract_report_data_batch.py:556-560 | the groups hold every located item once, one group per drawer used, and none is shared exactly when the drawers are distinct |
| DrawerItems.SinglesSize | report_analysis/Auto_extract_report_data_batch.py:570-577 | there are at least as many located items as drawers, and exactly as many when none is shared |
| DrawerItems.Unplaced | report_analysis/Auto_extract_report_data_batch.py:580-582 | the unplaced items are exactly the named items that were not located |
| DrawerItems.FirstThree | report_analysis/Auto_extract_report_data_batch.py:541 | at most the first three entries, all of a short list |
| DrawerItems.DifferentDrawers | report_analysis/Auto_extract_report_data_batch.py:432-614 | the verdict fails exactly when it carries an error, and the total is the number of named items |
| DrawerItems.Placement | report_analysis/Auto_extract_report_data_batch.py:551-614 | the placement verdict fails exactly when it carries an error, and its total is the number of items |
| DrawerItems.LocatedCount | report_analysis/Auto_extract_report_data_batch.py:585-588 | at most as many items are located as were named, and as many exactly when the names are distinct and all located |
| DrawerItems.DifferentDrawersSuccess | report_analysis/Auto_extract_report_data_batch.py:463-590 | success exactly when at least two drawer layers exist, no unrelated item is in a drawer, at least two distinct items are named, all located, in drawers of their own |
| DrawerItems.PlacementSuccess | report_analysis/Auto_extract_report_data_batch.py:562-590 | past the first checks, success exactly when at least two distinct items are named, all located, in distinct drawers |
| DrawerItems.GroupsVerdict | report_analysis/Auto_extract_report_data_batch.py:562-590 | not all in one drawer, score equal to the item count and as many drawers as items exactly when at least two items are each in a drawer of their own |
| DrawerItems.PlacementBounded | report_analysis/Auto_extract_report_data_batch.py:565-614 | the score never exceeds the total |
| DrawerItems.DifferentDrawersBounded | report_analysis/Auto_extract_report_data_batch.py:432-614 | the score never exceeds the total |
| DrawerItems.JudgeDifferentDrawers | report_analysis/Auto_extract_report_data_batch.py:432-614 | the judge's loops compute exactly the different-drawers verdict |
| DrawerItems.ExtractItems | report_analysis/Auto_extract_report_data_batch.py:441-461 | the loops give exactly the items to place |
| DrawerItems.CleanPieces | report_analysis/Auto_extract_report_data_batch.py:452-455 | the loop gives exactly the cleaned non-empty pieces |
| DrawerItems.CommonItemsIn | report_analysis/Auto_extract_report_data_batch.py:458-461 | the loop gives exactly the common items the goal mentions |
| DrawerItems.CollectDrawerLayers | report_analysis/Auto_extract_report_data_batch.py:467-481 | the loops give exactly the drawer layers of nodes and edge locations |
| DrawerItems.DrawerNodes | report_analysis/Auto_extract_report_data_batch.py:470-472 | exactly the nodes whose lowered name contains drawer |
| DrawerItems.DrawerLocationsOf | report_analysis/Auto_extract_report_data_batch.py:475-481 | exactly the matched edge locations that contain drawer |
| DrawerItems.MatchItem | report_analysis/Auto_extract_report_data_batch.py:513-517 | the loop finds exactly the first item the name stands for |
| DrawerItems.CollectAllowed | report_analysis/Auto_extract_report_data_batch.py:493-529 | the loops give exactly the node names that stand for some named item |
| DrawerItems.LocateItems | report_analysis/Auto_extract_report_data_batch.py:504-523 | the loop gives exactly the item-location dictionary |
| DrawerItems.CollectIntruders | report_analysis/Auto_extract_report_data_batch.py:531-538 | the loop gives exactly the unrelated items in drawers |
| DrawerItems.GroupByDrawer | report_analysis/Auto_extract_report_data_batch.py:556-560 | the loop groups exactly the located items by drawer |
| DrawerItems.ScoreGroups | report_analysis/Auto_extract_report_data_batch.py:570-577 | the loop gives exactly the score and the number of shared drawers |
| DrawerItems.CollectUnplaced | report_analysis/Auto_extract_report_data_batch.py:580-582 | the loop gives exactly the unplaced items |
| DrawerItems.OneDrawerGroup | report_analysis/Auto_extract_report_data_batch.py:556-560 | items all located in one drawer form a single group of that drawer holding all of them |
| DrawerItems.PlacementAllInOne | report_analysis/Auto_extract_report_data_batch.py:562-567 | the all-in-one-drawer verdict, scored 0.8, comes exactly when every named item is located and all in the same drawer |
| DrawerItems.PlacementScore | report_analysis/Auto_extract_report_data_batch.py:569-614 | past that case, the score is a full point per drawer holding one item and half a point per shared drawer |
| DrawerItems.UnrelatedScoresZero | report_analysis/Auto_extract_report_data_batch.py:540-542 | an unrelated item in a drawer fails the task with nothing scored |
| DrawerItems.ValuesAt | report_analysis/Auto_extract_report_data_batch.py:556-560 | each entry's drawer is read back in place |
| ColourJudges.ColourFilter | report_analysis/Auto_extract_report_data_batch.py:755-760 | exactly the listed names that are `<colour>_<kind>` followed by digits, no more of them than names |
| ColourJudges.CorrectFor | report_analysis/Auto_extract_report_data_batch.py:763-769 | no more objects of a colour are in their box than are counted for it |
| ColourJudges.CorrespondingBoxes | report_analysis/Auto_extract_report_data_batch.py:743-784 | the verdict fails exactly when it carries an error, and its correct count never exceeds its total |
| ColourJudges.JudgeCorrespondingBoxes | report_analysis/Auto_extract_report_data_batch.py:703-784 | the judge's loops compute exactly the corresponding-boxes verdict |
| ColourJudges.InBoxAll | report_analysis/Auto_extract_report_data_batch.py:766-769 | all checked objects are in the box exactly when each one's location is that box |
| ColourJudges.TotalsMeet | report_analysis/Auto_extract_report_data_batch.py:743-778 | a sum of smaller terms is no larger, and equal exactly when every term is equal |
| ColourJudges.CorrectOverAll | report_analysis/Auto_extract_report_data_batch.py:743-778 | correct never exceeds total, and equals it exactly when every colour's objects are all in its box |
| ColourJudges.ColourCubeIsTracked | report_analysis/Auto_extract_report_data_batch.py:720-721 | a name the cube pattern selects is one the node loop files as a cube |
| ColourJudges.ColourMugIsTracked | report_analysis/Auto_extract_report_data_batch.py:722-723 | a red, blue or yellow mug name the pattern selects is one the node loop files as a mug |
| ColourJudges.ColourObjectsAre | report_analysis/Auto_extract_report_data_batch.py:720-760 | an object is counted for a colour exactly when it is a scene node that is a cube or mug of that colour |
| ColourJudges.CorrespondingSuccess | report_analysis/Auto_extract_report_data_batch.py:743-780 | success exactly when every red, blue and yellow cube and mug in the scene is in the box of its colour |
| ColourDrawers.ItemsInDrawers | report_analysis/Auto_extract_report_data_batch.py:829-841 | only objects in a drawer are listed, each with its drawer, and no more than there are objects |
| ColourDrawers.InDrawersAll | report_analysis/Auto_extract_report_data_batch.py:829-841 | every object is listed exactly when every object is in a drawer |
| ColourDrawers.Unrelated | report_analysis/Auto_extract_report_data_batch.py:843-855 | the listed items are all outside the allowed names, and there are none exactly when no edge puts another item into a drawer |
| ColourDrawers.TrailingDigits | report_analysis/Auto_extract_report_data_batch.py:884-889 | the counted tail is all digits, and the character before it is not one |
| ColourDrawers.KindColour | report_analysis/Auto_extract_report_data_batch.py:884-889 | a colour read from a name is a non-empty run of word characters |
| ColourDrawers.KindColourOf | report_analysis/Auto_extract_report_data_batch.py:884-889 | the colour read from `<w>_<kind><digits>` is `w` |
| ColourDrawers.TrailingDigitsOf | report_analysis/Auto_extract_report_data_batch.py:884-889 | the digit tail appended to a stem that does not end in a digit is counted exactly |
| ColourDrawers.ColourOf | report_analysis/Auto_extract_report_data_batch.py:878-903 | a colour read from an item name is never empty |
| ColourDrawers.CubeColour | report_analysis/Auto_extract_report_data_batch.py:884-886 | `<colour>_cube<digits>` reads as that colour |
| ColourDrawers.MugColour | report_analysis/Auto_extract_report_data_batch.py:887-889 | `<colour>_mug<digits>` reads as that colour |
| ColourDrawers.ColoursAtEmpty | report_analysis/Auto_extract_report_data_batch.py:858-905 | a drawer holding none of the items shows no colour |
| ColourDrawers.ByColour | report_analysis/Auto_extract_report_data_batch.py:786-946 | no verdict exactly when a tracked cube or mug has no location; otherwise the verdict fails exactly when it carries an error, its total is the number of cubes and mugs, and its count never exceeds that |
| ColourDrawers.JudgeByColour | report_analysis/Auto_extract_report_data_batch.py:786-946 | the judge's loops compute exactly the by-colour verdict |
| ColourDrawers.PlaceInDrawers | report_analysis/Auto_extract_report_data_batch.py:829-841 | whether every object is located, and exactly the objects in drawers with their drawers |
| ColourDrawers.GroupColours | report_analysis/Auto_extract_report_data_batch.py:858-905 | the loop groups exactly the colours read from the items of each drawer |
| ColourDrawers.GroupStep | report_analysis/Auto_extract_report_data_batch.py:858-905 | adding one item's colour to its drawer's group keeps the grouping exact |
| ColourDrawers.CollectUnrelated | report_analysis/Auto_extract_report_data_batch.py:843-855 | the loop gives exactly the unrelated items in drawers |
| ColourDrawers.CountSingleColour | report_analysis/Auto_extract_report_data_batch.py:907-909 | the loop counts exactly the drawers whose items show one colour |
| ColourDrawers.ByColourSuccess | report_analysis/Auto_extract_report_data_batch.py:924-925 | with every object located, success exactly when no other item is in a drawer, every cube and mug is in a drawer, and three drawer layers are single-coloured |
| ColourDrawers.ByColourVerdict | report_analysis/Auto_extract_report_data_batch.py:857-925 | with every object located, success exactly when P1 is 1, P2 equals S, and P3 is 1.0 |
| ColourDrawers.OneDecimal | report_analysis/Auto_extract_report_data_batch.py:920 | a printed one-decimal P3 reads back as its value |
| ColourDrawers.P3TextValue | report_analysis/Auto_extract_report_data_batch.py:911-920 | the printed P3 holds no slash and reads back as 0.2, 0.5, 1.0 or 0.0, its value |
| ColourDrawers.PrintedTenths | report_analysis/Auto_extract_report_data_batch.py:920 | a digit, a dot and a digit hold no slash and read back as the tenths they spell |
| ColourDrawers.ByColourProgress | report_analysis/Auto_extract_report_data_batch.py:920-926 | the progress detail `P1/P2/P3/S` reads back as P2 over S, and as nothing when S is 0 |
| MoveJudge.Keyword | report_analysis/Auto_extract_report_data_batch.py:1108 | a keyword followed by spaces ends past the keyword and within the goal |
| MoveJudge.InTail | report_analysis/Auto_extract_report_data_batch.py:1108 | the spaces, `into` or `in`, and spaces after it end past where they start, within the goal |
| MoveJudge.KindThenIn | report_analysis/Auto_extract_report_data_batch.py:1108-1111 | the kind read before `into`/`in` is cube or mug |
| MoveJudge.ColourFrom | report_analysis/Auto_extract_report_data_batch.py:1108-1111 | a colour read from the goal is non-empty, and its kind is cube or mug |
| MoveJudge.TrimTrailing | report_analysis/Auto_extract_report_data_batch.py:1246 | the trimmed word is a prefix of the word that does not end in punctuation or a space |
| MoveJudge.NodeNaming | report_analysis/Auto_extract_report_data_batch.py:1259-1269 | the first node naming the drawer word contains it, and none is found exactly when no node contains it or ends with it |
| MoveJudge.EndsWithContains | report_analysis/Auto_extract_report_data_batch.py:1262 | a name ending with the word contains it |
| MoveJudge.RemoveStates | report_analysis/Auto_extract_report_data_batch.py:1267 | removing the state suffixes never lengthens the name |
| MoveJudge.InCabinet | report_analysis/Auto_extract_report_data_batch.py:1272-1278 | the drawer path is under `short_cabinet/` and ends with the word |
| MoveJudge.TargetOf | report_analysis/Auto_extract_report_data_batch.py:1248-1278 | a resolved target is never empty |
| MoveJudge.EdgeLocation | report_analysis/Auto_extract_report_data_batch.py:1120-1122 | a location read from an edge of the node is a non-empty path |
| MoveJudge.CurrentLocation | report_analysis/Auto_extract_report_data_batch.py:1117-1125 | an item's location is "table" or that of one of its edges |
| MoveJudge.KindFilter | report_analysis/Auto_extract_report_data_batch.py:1137-1144 | exactly the nodes of the kind, cubes by `_cube` and mugs by `mug` |
| MoveJudge.OnTable | report_analysis/Auto_extract_report_data_batch.py:1204-1209 | an item read from an on-table edge is never empty |
| MoveJudge.GatherSnoc | report_analysis/Auto_extract_report_data_batch.py:1203-1221 | gathering over one more edge adds that edge's item, if any |
| MoveJudge.CountAt | report_analysis/Auto_extract_report_data_batch.py:1288-1291 | no more items are at the target than were listed |
| MoveJudge.Counts | report_analysis/Auto_extract_report_data_batch.py:1284-1291 | the correct count never exceeds the total |
| MoveJudge.MoveInto | report_analysis/Auto_extract_report_data_batch.py:1076-1305 | any verdict fails exactly when it carries an error, and its count never exceeds its total |
| MoveJudge.Judge | report_analysis/Auto_extract_report_data_batch.py:1236-1305 | any verdict fails exactly when it carries an error, and its count never exceeds its total |
| MoveJudge.KindThenInWord | report_analysis/Auto_extract_report_data_batch.py:1108-1132 | where the coloured pattern finds a kind, the kind search finds one too |
| MoveJudge.KindAlwaysFound | report_analysis/Auto_extract_report_data_batch.py:1131-1132 | once the uncoloured pattern matches, the kind search always finds cubes or mugs |
| MoveJudge.CountAtAll | report_analysis/Auto_extract_report_data_batch.py:1288-1299 | every listed item is counted exactly when each is at the target |
| MoveJudge.AtTargetAll | report_analysis/Auto_extract_report_data_batch.py:1288-1299 | every collected item is counted exactly when each is at the target |
| MoveJudge.JudgeVerdict | report_analysis/Auto_extract_report_data_batch.py:1283-1305 | with a resolved target, success exactly when every selected item is at it |
| MoveJudge.MoveIntoVerdict | report_analysis/Auto_extract_report_data_batch.py:1096-1305 | for a goal whose target resolves, success exactly when every item it selects is at the target |
| MoveJudge.NothingSelectedSucceeds | report_analysis/Auto_extract_report_data_batch.py:1284-1300 | a goal selecting nothing with a resolved target succeeds with 0 of 0 |
| MoveJudge.JudgeNothing | report_analysis/Auto_extract_report_data_batch.py:1284-1300 | no selection with a resolved target succeeds with 0 of 0 |
| MoveJudge.MoveIntoRaises | report_analysis/Auto_extract_report_data_batch.py:1093-1244 | no verdict exactly when the goal is non-empty and nothing follows its `into`/`in` |
| MoveJudge.JudgeUnclear | report_analysis/Auto_extract_report_data_batch.py:1248-1281 | the target-unclear verdict exactly when no target is said or the word is neither a box nor a drawer |
| MoveJudge.MoveIntoUnclear | report_analysis/Auto_extract_report_data_batch.py:1240-1281 | for a goal with a target word, the target-unclear verdict exactly when none is said or it is neither a box nor a drawer |
| MoveJudge.JudgeMoveInto | report_analysis/Auto_extract_report_data_batch.py:1076-1305 | the judge's loops compute exactly the type-1 verdict |
| MoveJudge.ResolveTarget | report_analysis/Auto_extract_report_data_batch.py:1248-1278 | the loop resolves exactly the target the goal names |
| MoveJudge.FindNode | report_analysis/Auto_extract_report_data_batch.py:1259-1269 | the loop finds exactly the first node naming the drawer |
| MoveJudge.LocateNode | report_analysis/Auto_extract_report_data_batch.py:1117-1125 | the loop finds exactly the node's current location |
| MoveJudge.ListItems | report_analysis/Auto_extract_report_data_batch.py:1108-1156 | the loops list exactly the selected cubes or mugs |
| MoveJudge.CountPlaced | report_analysis/Auto_extract_report_data_batch.py:1288-1291 | the loop counts exactly the listed items at the target |
| MoveJudge.CollectTableItems | report_analysis/Auto_extract_report_data_batch.py:1200-1221 | the loops collect exactly the items left on the table or moved to the target |
| MoveJudge.CollectLeftOnTable | report_analysis/Auto_extract_report_data_batch.py:1203-1209 | the loop collects exactly the non-container items still on the table |
| MoveJudge.CollectMovedTo | report_analysis/Auto_extract_report_data_batch.py:1212-1221 | the loop collects exactly the non-container items at the target |
| MoveJudge.CountSetAt | report_analysis/Auto_extract_report_data_batch.py:1224-1291 | the loop counts exactly the collected items at the target |
| MoveGoals.Layout | report_analysis/Auto_extract_report_data_batch.py:1108 | the goal text splits into its keyword, colour and box parts |
| MoveGoals.WordRegion | report_analysis/Auto_extract_report_data_batch.py:1108 | the colour up to `into` is one word run with a single `_` before the kind |
| MoveGoals.Inside | report_analysis/Auto_extract_report_data_batch.py:1108 | a slice of a known stretch of the goal is the same slice of that stretch |
| MoveGoals.OneSpace | report_analysis/Auto_extract_report_data_batch.py:1108 | a single space is a run of length one |
| MoveGoals.MoveAll | report_analysis/Auto_extract_report_data_batch.py:1108 | `move` and `all` are each followed by one space |
| MoveGoals.NoThe | report_analysis/Auto_extract_report_data_batch.py:1108 | the optional `the` does not match before the colour |
| MoveGoals.ColourSkip | report_analysis/Auto_extract_report_data_batch.py:1108 | backtracking the greedy colour stops at no position that is not `_` |
| MoveGoals.IntoAt | report_analysis/Auto_extract_report_data_batch.py:1242 | ` into ` before a word is the separator |
| MoveGoals.CubesAt | report_analysis/Auto_extract_report_data_batch.py:1108-1111 | `cubes into ` before a word reads as the cube kind |
| MoveGoals.NoSeparatorAt | report_analysis/Auto_extract_report_data_batch.py:1242 | no separator starts where there is no space followed by `in` or `into` and a space |
| MoveGoals.ColourRun | report_analysis/Auto_extract_report_data_batch.py:1108 | the word run from the colour ends before `into` |
| MoveGoals.ColourOfGoal | report_analysis/Auto_extract_report_data_batch.py:1108-1111 | the goal reads as the colour and the cube kind |
| MoveGoals.NoSeparatorBefore | report_analysis/Auto_extract_report_data_batch.py:1242 | no separator starts before the colour's end |
| MoveGoals.FirstSeparator | report_analysis/Auto_extract_report_data_batch.py:1242 | the first separator is the one after the cubes |
| MoveGoals.BoxWord | report_analysis/Auto_extract_report_data_batch.py:1244-1246 | the box name is its own first word after stripping and trimming |
| MoveGoals.BoxOfGoal | report_analysis/Auto_extract_report_data_batch.py:1240-1246 | the target word is the box |
| MoveGoals.MoveColourCubes | report_analysis/Auto_extract_report_data_batch.py:1076-1305 | for "move all <colour>_cubes into <box>_box", in any case, success exactly when every cube of that colour is in that box |
| ReportDispatch.CubeMugCount | report_analysis/Auto_extract_report_data_batch.py:1333-1335 | each node counts at most once as a cube and once as a mug |
| ReportDispatch.Dispatch | report_analysis/Auto_extract_report_data_batch.py:1313-1371 | any verdict a judge returns fails exactly when it carries an error |
| ReportDispatch.JudgeWithError | report_analysis/Auto_extract_report_data_batch.py:1307-1374 | the verdict fails exactly when it carries an error, and succeeds only as the routed judge's own verdict |
| ReportDispatch.TypeTwoAlwaysRouted | report_analysis/Auto_extract_report_data_batch.py:1345-1363 | a type-2 goal never reaches the type-1 judge |
| ReportDispatch.MoveIntoRoute | report_analysis/Auto_extract_report_data_batch.py:1313-1371 | the type-1 judge runs exactly for a non-empty goal that is not a layer task and classifies as type 1 |
| ReportDispatch.DispatchRaises | report_analysis/Auto_extract_report_data_batch.py:1313-1374 | a judge raises exactly when the by-colour judge meets an unlocated object or the type-1 judge finds nothing after its `into` |
| ReportDispatch.FailureCarriesError | report_analysis/Auto_extract_report_data_batch.py:1307-1374 | failure exactly when there is an error, and a raising judge gives the crash verdict |
| ReportDispatch.ProcessReport | report_analysis/Auto_extract_report_data_batch.py:1376-1422 | a report is skipped exactly when it holds no scene graph; a judged report's verdict is consistent and its type is 1 or 2 |
| ReportDispatch.ErrorText | report_analysis/Auto_extract_report_data_batch.py:1307-1374 | the error message of every kind of failure the routed judges or the exception wrapper return is non-empty |
| ReportDispatch.LoggedStatus | report_analysis/Auto_extract_report_data_batch.py:1559-1637 | the logged status is FAILED exactly for a skipped report, SUCCESS exactly for a judged success, ERROR otherwise |
| ReportDispatch.ScoreText | report_analysis/Auto_extract_report_data_batch.py:1488 | a printed score is never empty |
| ReportDispatch.ProgressField | report_analysis/Auto_extract_report_data_batch.py:1477-1488 | the progress field is empty exactly when there is no progress or its total is 0, and otherwise starts with the Progress label |
| ReportDispatch.CreateLogEntry | report_analysis/Auto_extract_report_data_batch.py:1454-1508 | the sort key is the config's first number (999999 without one), and the line starts with the head and its status |
| ReportDispatch.StatusReadBack | report_analysis/Auto_extract_report_data_batch.py:1496-1506 | the analyzer reads back from a log line exactly the status it was written with |
| ReportDispatch.StatusWord | report_analysis/Auto_extract_report_data_batch.py:1498-1506 | each of the three status words reads back as its status |
| ReportDispatch.TwoFields | report_analysis/Auto_extract_report_data_batch.py:1488 | two digit runs joined by a slash are already stripped and split back into the two runs |
| ReportDispatch.ProgressReadBack | report_analysis/Auto_extract_report_data_batch.py:1488 | a whole-number progress `n/total` reads back as n over total |
| SuccessRate.FirstInRange | report_analysis/analyze_success_rate.py:366-372 | the first listed category whose range holds the number, and none exactly when no listed range holds it |
| SuccessRate.CategoryListed | report_analysis/analyze_success_rate.py:15-25 | every category is one of the nine listed |
| SuccessRate.RangesDisjoint | report_analysis/analyze_success_rate.py:15-25 | no number lies in two category ranges |
| SuccessRate.CategoriesPartition | report_analysis/analyze_success_rate.py:15-25 | a config number falls in a category exactly when it is between 17 and 106, and then in exactly the one whose range holds it |
| SuccessRate.CategoriesDistinct | report_analysis/analyze_success_rate.py:15-25 | the nine categories are distinct |
| SuccessRate.ClassifyIsFaithful | report_analysis/analyze_success_rate.py:113-123 | the result type reports success exactly for SUCCESS and a failure reason exactly when one was logged, and every type arises |
| SuccessRate.Pow10 | report_analysis/analyze_success_rate.py:57-70 | a power of ten is at least one |
| SuccessRate.Fraction | report_analysis/analyze_success_rate.py:57-70 | the decimal fraction of a digit string is never negative |
| SuccessRate.ParseFloatOfDigits | report_analysis/analyze_success_rate.py:57-70 | a digit string reads as its decimal value |
| SuccessRate.LeadingFraction | report_analysis/analyze_success_rate.py:67-74 | a fraction read at the start has a positive total |
| SuccessRate.ParseProgress | report_analysis/analyze_success_rate.py:50-78 | a parsed progress always has a positive total |
| SuccessRate.LeadingFractionOfDigits | report_analysis/analyze_success_rate.py:67-74 | `x/y` followed by a non-digit reads as x over y, and as nothing when y is 0 |
| SuccessRate.Join4Leading | report_analysis/analyze_success_rate.py:55-56 | four fields joined by slashes start with the first field and a slash |
| SuccessRate.JoinFour | report_analysis/analyze_success_rate.py:55-56 | the two ways of joining four fields with slashes agree |
| SuccessRate.Four | report_analysis/analyze_success_rate.py:55-56 | a sequence built from one element and a tail of three is the four elements |
| SuccessRate.SplitFour | report_analysis/analyze_success_rate.py:55-56 | four slash-free fields joined by slashes split back into the four fields |
| SuccessRate.DigitsHaveNoSlash | report_analysis/analyze_success_rate.py:55-71 | a digit string holds no slash, is already stripped, and reads as the same number as a float and as an integer |
| SuccessRate.FourFieldProgress | report_analysis/analyze_success_rate.py:50-78 | `P1/P2/P3/S` reads as P2 over S when S is positive, and otherwise as the leading `P1/P2` |
| SuccessRate.FourNumericFields | report_analysis/analyze_success_rate.py:53-66 | a stripped four-field progress whose fields all read as numbers gives the second over the fourth when that is positive |
| SuccessRate.ParseLine | report_analysis/analyze_success_rate.py:86-123 | a line read as a result holds the config marker and `File:`, and its result type is the classification of its status and failure reason |
| SuccessRate.Put | report_analysis/analyze_success_rate.py:125 | storing under a config keeps the other entries in place and either replaces that config's entry or appends it |
| SuccessRate.PutKeepsDistinct | report_analysis/analyze_success_rate.py:125 | storing keeps configs distinct, and the config's entry is the new result |
| SuccessRate.ParseLogFile | report_analysis/analyze_success_rate.py:80-137 | the loop reads exactly the results of the log's lines |
| SuccessRate.LaterLineWins | report_analysis/analyze_success_rate.py:85-135 | a line that is not a result changes nothing, and a later result for a config replaces the earlier one |
| SuccessRate.LogResultsDistinct | report_analysis/analyze_success_rate.py:80-137 | each config appears at most once in the results |
| SuccessRate.Add | report_analysis/analyze_success_rate.py:370-371 | counting a result adds one to its type and to the total and leaves the other types alone, so the counts keep summing to the total |
| SuccessRate.TallyOf | report_analysis/analyze_success_rate.py:342-374 | a category's tally has counts that sum to its total |
| SuccessRate.TallyCountsMatching | report_analysis/analyze_success_rate.py:366-372 | a category's count of a result type is the number of results in its range with that type |
| SuccessRate.TalliedStep | report_analysis/analyze_success_rate.py:366-372 | counting one more result keeps every category's tally exact |
| SuccessRate.CategorizeResults | report_analysis/analyze_success_rate.py:342-374 | the loop gives every category the exact tally of its results |
| SuccessRate.CountEntry | report_analysis/analyze_success_rate.py:366-372 | one result is counted into the category its config falls in |
| SuccessRate.CombineAppend | report_analysis/analyze_success_rate.py:399-430 | combining two lists of tallies is adding their combinations |
| SuccessRate.PlusAssociates | report_analysis/analyze_success_rate.py:399-430 | adding tallies is associative |
| SuccessRate.CombineThree | report_analysis/analyze_success_rate.py:399-421 | three tallies combine as their sum |
| SuccessRate.TalliesOf | report_analysis/analyze_success_rate.py:399-430 | the tallies of the listed categories, in order |
| SuccessRate.Rate | report_analysis/analyze_success_rate.py:381-393 | a rate is 0 over an empty total and between 0 and 100 when the count is within the total |
| SuccessRate.TotalOverStep | report_analysis/analyze_success_rate.py:366-372 | one more result adds its hits in the categories |
| SuccessRate.HitsOfDistinct | report_analysis/analyze_success_rate.py:366-372 | over distinct categories a number hits one exactly when its category is among them |
| SuccessRate.NineTotalsCountInRange | report_analysis/analyze_success_rate.py:366-372 | the nine totals together count exactly the results whose config lies in some range |
| SuccessRate.ZeroTotals | report_analysis/analyze_success_rate.py:344-363 | no results give zero totals |
| SuccessRate.CombinedTotal | report_analysis/analyze_success_rate.py:424-430 | the combined total is the sum of the category totals |
| SuccessRate.TalliedAgree | report_analysis/analyze_success_rate.py:366-372 | an exact tally agrees with each category's own count |
| SuccessRate.SumOfTallied | report_analysis/analyze_success_rate.py:424-430 | the sum of exact category totals is the number of results in the categories |
| SuccessRate.NineTallies | report_analysis/analyze_success_rate.py:399-430 | the overall tally is both the sum of the three level tallies and the sum of the three difficulty tallies |
| SuccessRate.DifficultyRegrouping | report_analysis/analyze_success_rate.py:399-421 | summing by level and summing by difficulty give the same tally |
| SuccessRate.LevelTally | report_analysis/analyze_success_rate.py:400-409 | a level's tally is the sum of its three difficulties |
| SuccessRate.DifficultyTally | report_analysis/analyze_success_rate.py:412-421 | a difficulty's tally is the sum of its three levels |
| SuccessRate.OverallTotals | report_analysis/analyze_success_rate.py:376-433 | the overall total counts exactly the results in some category, and equals both regroupings |
| SuccessRate.RatesBounded | report_analysis/analyze_success_rate.py:381-393 | every rate is between 0 and 100, and 0 when the total is 0 |

## Left out

- The 3D desk simulator (placement search, geometric relations, animation) is not part of this model; its JavaScript is not among the modelled files.
- ROS 2 plumbing is outside the model: publishers, subscriptions, the `/agent_trigger` polling loop, `_smart_refresh_scene_graph`, `force_refresh_from_ros` and `ros_manager.py`. Scene graphs reach the model as parameters.
- Calls to the language model, the LangGraph workflow wiring, the thread-pool timeouts and `time.sleep` are outside the model. In the retry loop, each attempt's outcome (success, timeout, rate limit, other error) is a parameter, and the waits are computed rather than slept.
- File, HTTP and YAML I/O are outside the model: reading reports, writing JSON results and the sorted log file, the configuration server's request handling and YAML file, and `_save_task_execution_report`. Whether writing the configuration file succeeds is a parameter.
- A scene document's keys other than `nodes` and `edges` keep their values as JSON text. Two values are equal in the model exactly when their texts are, so numbers written differently but equal in Python (`1` and `1.0`) count as different.
- JSON decoding is a foreign call. What the decoder makes of a text is passed in (`StabilityTracking.Decoded`, `AgentControl.Reading`, the decoded scene in `SceneSummary.SceneToolExecute`).
- Extracting the goal, user input, fail reason and scene graphs from a report's text is outside the model. `ReportDispatch.ProcessReport` receives them as parameters.
- Floating-point reporting is outside the model: percentages, `round()`, the numeric value of the rates beyond their bounds, `calculate_progress_statistics`, `generate_detailed_report`, and the timing fields of the tool statistics. Judge scores are kept exactly, as whole numbers or tenths.
- Python's `re` is not modelled in general. Each pattern the code uses is written out as a matcher for the shapes it accepts. `\w`, `\d`, `isdigit` and `lower()` are restricted to ASCII. `\s` and `strip()` use Python's whitespace set.
- Human-readable messages (errors, responses, feedback text) are modelled as datatype constructors carrying their figures, not as their exact wording. The exceptions are where a text is read back (log lines, progress fields, action commands and retry hints) and the judges' error messages, whose fixed opening is spelt out by `ReportDispatch.ErrorText`; the detail lists after it and the text of a caught exception are not.
- The judges' response messages are a parameter of `ReportDispatch.CallFor`.
- Set iteration order in `_analyze_3d_desktop_accessibility` depends on string hashing. It is a parameter `order` (a permutation of the three boxes).
- `SceneSummary.AccessibilitySorted`: the summary's accessible and blocked box lists are proved sorted, but the inner `sorted()` of each box's object list is not modelled. Those lists keep edge order.
- The legacy branch of `_analyze_scene_graph` in the scene graph tool calls an undefined method, so it always raises. It is modelled as a failure outcome, and the unreachable code after its `return` is left out.
- `judge_type_4_color_sorted_to_drawers` is never dispatched, and `judge_type_2_all_items_to_container` is never reached (`ReportDispatch.TypeTwoAlwaysRouted`). Neither is modelled. `parse_type_1_task_requirements` is never called and is left out as well.
- `log_result`, `save_result`, `copy_successful_report`, `find_report_files` and the batch loop's printing and sorting are outside the model. The loop's choice among the three kinds of log entry is modelled in `ReportDispatch.CallFor`.
- `_parse_action_from_text` and `_parse_next_action_from_text_think` are not called by the agent and are left out.
- `ReportDispatch.ProgressReadBack`: only whole-number progress (`n/total`) is proved to read back. A tenths score such as `0.8/3` is not covered, and its printing assumes Python's one-decimal float form.
- `SuccessRate.ParseLine`: a parsed line records its config, status, failure-reason flag and file name. The progress figures and the failure reason's text are not recorded. `parse_progress` is modelled on its own as `SuccessRate.ParseProgress`. The `Fail_reason` pattern is read for lines whose only newline is at the end.
- `ToolStats.ToolBookkeeping.Call`: total execution time is not tracked, and the record's timestamp and duration are left out.
- `AgentControl.ProcessUserInput`: the configured delays and the backoff factor are whole numbers of seconds, and the factor's powers are computed exactly. Float arithmetic and its rounding are not modelled.
- `Text.ParseInt` and `SuccessRate.ParseFloat` accept plain ASCII decimals only. The underscores, exponents, `inf`, `nan` and non-ASCII digits that `int()` and `float()` also take are rejected. The log's progress pattern only captures digits, dots and slashes, so this matters only for the configuration server's number segment: a segment such as `1_0` is modelled as an invalid number where Python reads 10.
- `AgentControl.ArgsText` prints the arguments dictionary without Python's escaping of quotes and backslashes in the query. It still tells different queries apart (`AgentControl.ArgsTextInjective`).
