// The bookkeeping every agent tool shares (langgraph_agent/tools/base_tool.py):
// each call is counted and recorded, and an exception raised by the tool's
// own logic is turned into a failure text instead of escaping.
module ToolStats {

  /** What the tool's own `execute` did: it returned a text or raised with a message. */
  datatype Execution = Returned(result: string) | Raised(message: string)

  /** One entry of the call history; timestamps and durations are left out. */
  datatype CallRecord = CallRecord(success: bool, errorMsg: string, query: string)

  /** The longest query prefix kept in a record. */
  const QueryLimit: nat := 200

  /** `str(query)[:200] if query else ""`. */
  function RecordedQuery(query: string): (r: string)
    ensures |r| <= QueryLimit
    ensures r <= query
    ensures |query| <= QueryLimit ==> r == query
  {
    if |query| <= QueryLimit then query else query[..QueryLimit]
  }

  /** What the caller receives. */
  function CallResult(e: Execution): (r: string)
    ensures e.Returned? ==> r == e.result
    ensures e.Raised? ==> r == "Tool execution failed: " + e.message
  {
    match e
    case Returned(result) => result
    case Raised(message) => "Tool execution failed: " + message
  }

  /** The record a call leaves behind. */
  function RecordOf(query: string, e: Execution): (r: CallRecord)
    ensures r.success <==> e.Returned?
    ensures r.errorMsg == (if e.Raised? then e.message else "")
    ensures r.query == RecordedQuery(query)
  {
    CallRecord(e.Returned?, if e.Raised? then e.message else "", RecordedQuery(query))
  }

  /** The number of successful records. */
  function Successes(history: seq<CallRecord>): (n: nat)
    ensures n <= |history|
  {
    if history == [] then 0
    else Successes(history[..|history| - 1]) + (if history[|history| - 1].success then 1 else 0)
  }

  /** `successes / max(1, len(call_history))`. */
  function SuccessRate(history: seq<CallRecord>): (r: real)
    ensures 0.0 <= r <= 1.0
    ensures history == [] ==> r == 0.0
  {
    var d := if |history| == 0 then 1 else |history|;
    Successes(history) as real / d as real
  }

  /** A call's record adds one success exactly when the call succeeded. */
  lemma {:induction false} SuccessesOfAppend(history: seq<CallRecord>, query: string, e: Execution)
    ensures Successes(history + [RecordOf(query, e)]) == Successes(history) + (if e.Returned? then 1 else 0)
  {
    assert (history + [RecordOf(query, e)])[..|history|] == history;
  }

  /** A history of only successes has rate 1, one of only failures rate 0. */
  lemma {:induction false} UniformHistories(history: seq<CallRecord>)
    ensures (forall i :: 0 <= i < |history| ==> history[i].success) ==> Successes(history) == |history|
    ensures (forall i :: 0 <= i < |history| ==> !history[i].success) ==> Successes(history) == 0
  {
    if history != [] {
      var init := history[..|history| - 1];
      assert forall i :: 0 <= i < |init| ==> init[i] == history[i];
      UniformHistories(init);
    }
  }

  class ToolBookkeeping {
    const name: string
    var callCount: nat
    var callHistory: seq<CallRecord>

    /** The count and the history move in step. */
    predicate Valid()
      reads this
    {
      callCount == |callHistory|
    }

    constructor (name: string)
      ensures Valid()
      ensures this.name == name && callCount == 0 && callHistory == []
    {
      this.name := name;
      callCount := 0;
      callHistory := [];
    }

    /** `__call__`: count the call, run the tool, record the outcome and pass the result on. */
    method Call(query: string, e: Execution) returns (result: string)
      requires Valid()
      modifies this
      ensures Valid()
      ensures callCount == old(callCount) + 1
      ensures callHistory == old(callHistory) + [RecordOf(query, e)]
      ensures result == CallResult(e)
    {
      callCount := callCount + 1;
      var success := true;
      var errorMsg := "";
      match e {
        case Returned(r) =>
          result := r;
        case Raised(message) =>
          success := false;
          errorMsg := message;
          result := "Tool execution failed: " + message;
      }
      var q := if |query| == 0 then "" else if |query| <= QueryLimit then query else query[..QueryLimit];
      callHistory := callHistory + [CallRecord(success, errorMsg, q)];
    }

    /** `get_stats` without the timings: the call count and the success rate. */
    method GetStats() returns (count: nat, successRate: real)
      requires Valid()
      ensures count == |callHistory|
      ensures successRate == SuccessRate(callHistory) && 0.0 <= successRate <= 1.0
    {
      count := callCount;
      var successes := 0;
      var i := 0;
      while i < |callHistory|
        invariant 0 <= i <= |callHistory|
        invariant successes == Successes(callHistory[..i])
      {
        assert callHistory[..i + 1][..i] == callHistory[..i];
        if callHistory[i].success {
          successes := successes + 1;
        }
        i := i + 1;
      }
      assert callHistory[..|callHistory|] == callHistory;
      var d := if |callHistory| == 0 then 1 else |callHistory|;
      successRate := successes as real / d as real;
    }

    /** `reset_stats`: no calls and no history. */
    method ResetStats()
      modifies this
      ensures Valid()
      ensures callCount == 0 && callHistory == []
    {
      callCount := 0;
      callHistory := [];
    }
  }
}
