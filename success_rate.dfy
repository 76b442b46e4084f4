// The success-rate analysis of a batch of benchmark runs
// (report_analysis/analyze_success_rate.py): each processing-log line names a
// configuration, a status and an optional failure reason; the configurations
// fall into nine numbered categories, and the four-way result type is counted
// per category, per level, per difficulty and overall.
module SuccessRate {
  import opened Text

  // ----- categories -----

  datatype Level = Obj | Spatial | Goal
  datatype Difficulty = General | Medium | Difficult
  datatype Category = Category(level: Level, difficulty: Difficulty)

  /** The keys of CATEGORIES, in the order the dictionary lists them. */
  const Categories: seq<Category> :=
    [Category(Obj, General), Category(Obj, Medium), Category(Obj, Difficult),
     Category(Spatial, General), Category(Spatial, Medium), Category(Spatial, Difficult),
     Category(Goal, General), Category(Goal, Medium), Category(Goal, Difficult)]

  /** The configuration numbers of a category, both ends included. */
  function Range(c: Category): (int, int)
  {
    match c
    case Category(Obj, General) => (17, 26)
    case Category(Obj, Medium) => (27, 36)
    case Category(Obj, Difficult) => (57, 66)
    case Category(Spatial, General) => (37, 46)
    case Category(Spatial, Medium) => (47, 56)
    case Category(Spatial, Difficult) => (67, 76)
    case Category(Goal, General) => (87, 96)
    case Category(Goal, Medium) => (77, 86)
    case Category(Goal, Difficult) => (97, 106)
  }

  predicate InRange(c: Category, n: int)
  {
    Range(c).0 <= n <= Range(c).1
  }

  /** The first category of `cats` whose range holds `n`. */
  function FirstInRange(n: int, cats: seq<Category>): (r: Option<Category>)
    ensures r.Some? ==> r.value in cats && InRange(r.value, n)
    ensures r.None? <==> forall i :: 0 <= i < |cats| ==> !InRange(cats[i], n)
  {
    if cats == [] then None
    else if InRange(cats[0], n) then Some(cats[0])
    else
      var r := FirstInRange(n, cats[1..]);
      assert forall i :: 1 <= i < |cats| ==> cats[i] == cats[1..][i - 1];
      r
  }

  /** The category a configuration is counted in, as `categorize_results` finds it. */
  function CategoryOf(n: int): Option<Category>
  {
    FirstInRange(n, Categories)
  }

  lemma CategoryListed(c: Category)
    ensures c in Categories
  {
    match c
    case Category(Obj, General) => assert Categories[0] == c;
    case Category(Obj, Medium) => assert Categories[1] == c;
    case Category(Obj, Difficult) => assert Categories[2] == c;
    case Category(Spatial, General) => assert Categories[3] == c;
    case Category(Spatial, Medium) => assert Categories[4] == c;
    case Category(Spatial, Difficult) => assert Categories[5] == c;
    case Category(Goal, General) => assert Categories[6] == c;
    case Category(Goal, Medium) => assert Categories[7] == c;
    case Category(Goal, Difficult) => assert Categories[8] == c;
  }

  /** No two categories share a configuration number. */
  lemma RangesDisjoint(c: Category, d: Category, n: int)
    requires InRange(c, n) && InRange(d, n)
    ensures c == d
  {
  }

  /**
   * The categories cover exactly the numbers 17 to 106, and a configuration
   * is counted in a category exactly when its number lies in that range.
   */
  lemma CategoriesPartition(n: int, c: Category)
    ensures CategoryOf(n).Some? <==> 17 <= n <= 106
    ensures CategoryOf(n) == Some(c) <==> InRange(c, n)
  {
    if InRange(c, n) {
      CategoryListed(c);
      var i :| 0 <= i < |Categories| && Categories[i] == c;
      RangesDisjoint(c, CategoryOf(n).value, n);
    }
    if 17 <= n <= 106 {
      var c' := if n <= 26 then Category(Obj, General) else if n <= 36 then Category(Obj, Medium)
                else if n <= 46 then Category(Spatial, General) else if n <= 56 then Category(Spatial, Medium)
                else if n <= 66 then Category(Obj, Difficult) else if n <= 76 then Category(Spatial, Difficult)
                else if n <= 86 then Category(Goal, Medium) else if n <= 96 then Category(Goal, General)
                else Category(Goal, Difficult);
      CategoryListed(c');
      var i :| 0 <= i < |Categories| && Categories[i] == c';
    }
  }

  lemma CategoriesDistinct()
    ensures forall i, j :: 0 <= i < j < |Categories| ==> Categories[i] != Categories[j]
  {
  }

  // ----- the four-way result type -----

  datatype Status = Success | Error | Failed
  datatype ResultType = TrueSuccess | FalsePositive | GoalError | PlanningError

  /** Success with no failure reason is a true success; a failure reason makes it a false positive or a planning error. */
  function Classify(status: Status, hasFailReason: bool): ResultType
  {
    if status == Success then (if hasFailReason then FalsePositive else TrueSuccess)
    else (if hasFailReason then PlanningError else GoalError)
  }

  predicate ReportsSuccess(t: ResultType) { t == TrueSuccess || t == FalsePositive }
  predicate CarriesFailReason(t: ResultType) { t == FalsePositive || t == PlanningError }

  /** The result type records both the success status and the presence of a failure reason, and every type arises. */
  lemma ClassifyIsFaithful(status: Status, hasFailReason: bool, t: ResultType)
    ensures ReportsSuccess(Classify(status, hasFailReason)) <==> status == Success
    ensures CarriesFailReason(Classify(status, hasFailReason)) <==> hasFailReason
    ensures exists s: Status, f: bool :: Classify(s, f) == t
  {
    match t
    case TrueSuccess => assert Classify(Success, false) == t;
    case FalsePositive => assert Classify(Success, true) == t;
    case GoalError => assert Classify(Failed, false) == t;
    case PlanningError => assert Classify(Failed, true) == t;
  }

  // ----- progress strings -----

  function Pow10(k: nat): (r: nat)
    ensures r >= 1
  {
    if k == 0 then 1 else 10 * Pow10(k - 1)
  }

  /** The value of the digits after a decimal point. */
  function Fraction(f: string): (r: real)
    requires AllChars(f, IsDigit)
    ensures 0.0 <= r
  {
    DigitsValue(f) as real / Pow10(|f|) as real
  }

  /**
   * Python's float() on a plain decimal: surrounding whitespace, an optional
   * sign, digits with at most one point. The underscores, exponents, `inf` and
   * `nan` that float() also accepts are left out: the progress pattern of the
   * log lines captures only digits, dots and slashes.
   */
  function ParseFloat(s: string): (r: Option<real>)
  {
    var t := Strip(s);
    var negative := t != [] && t[0] == '-';
    var u := if t != [] && (t[0] == '-' || t[0] == '+') then t[1..] else t;
    var a := Run(u, IsDigit);
    var magnitude :=
      if a == |u| && a > 0 then Some(DigitsValue(u) as real)
      else if a < |u| && u[a] == '.' && AllChars(u[a + 1..], IsDigit) && (a > 0 || a + 1 < |u|) then
        Some(DigitsValue(u[..a]) as real + Fraction(u[a + 1..]))
      else None;
    if magnitude.None? then None
    else Some(if negative then -magnitude.value else magnitude.value)
  }

  lemma ParseFloatOfDigits(d: string)
    requires IsDigits(d)
    ensures ParseFloat(d) == Some(DigitsValue(d) as real)
  {
    StripNoop(d);
    assert IsDigit(d[0]);
    assert Run(d, IsDigit) == |d| by {
      RunOfConcat(d, [], IsDigit);
      assert d + [] == d;
    }
  }

  predicate IsDigitOrDot(c: char) { IsDigit(c) || c == '.' }

  /** `re.match(r'([\d\.]+)/(\d+)', t)`, then float() of the first group and int() of the second, with a positive total. */
  function LeadingFraction(t: string): (r: Option<(real, int)>)
    ensures r.Some? ==> r.value.1 > 0
  {
    var a := Run(t, IsDigitOrDot);
    if a == 0 || a == |t| || t[a] != '/' then None
    else
      var rest := t[a + 1..];
      var d := Run(rest, IsDigit);
      if d == 0 then None
      else
        var correct := ParseFloat(t[..a]);
        var total := DigitsValue(rest[..d]);
        if correct.None? || total == 0 then None else Some((correct.value, total))
  }

  /**
   * `parse_progress` without the rounded percentage: a four-field `P1/P2/P3/S`
   * with a positive `S` gives `(P2, S)`; otherwise a leading `X/Y` with a
   * positive `Y` gives `(X, Y)`. A field that is not a number (a `ValueError`)
   * gives nothing.
   */
  function ParseProgress(s: string): (r: Option<(real, int)>)
    ensures r.Some? ==> r.value.1 > 0
  {
    if s == [] then None
    else
      var t := Strip(s);
      var parts := Split(t, "/");
      if |parts| == 4 then
        var p1, p2, p3, total := ParseFloat(parts[0]), ParseFloat(parts[1]), ParseFloat(parts[2]), ParseInt(parts[3]);
        if p1.None? || p2.None? || p3.None? || total.None? then None
        else if total.value > 0 then Some((p2.value, total.value))
        else LeadingFraction(t)
      else LeadingFraction(t)
  }

  lemma LeadingFractionOfDigits(x: string, y: string, rest: string)
    requires IsDigits(x) && IsDigits(y)
    requires rest == [] || !IsDigit(rest[0])
    ensures LeadingFraction(x + ['/'] + (y + rest)) ==
            if DigitsValue(y) > 0 then Some((DigitsValue(x) as real, DigitsValue(y))) else None
  {
    var tail := y + rest;
    var t := x + ['/'] + tail;
    assert AllChars(x, IsDigitOrDot) by {
      assert forall i :: 0 <= i < |x| ==> IsDigit(x[i]);
    }
    assert t == x + (['/'] + tail);
    RunOfConcat(x, ['/'] + tail, IsDigitOrDot);
    assert t[|x|] == '/';
    assert t[..|x|] == x;
    assert t[|x| + 1..] == tail;
    RunOfConcat(y, rest, IsDigit);
    assert tail[..|y|] == y;
    ParseFloatOfDigits(x);
  }

  /** `p1/p2/p3/s`. */
  function Join4(p1: string, p2: string, p3: string, s: string): string
  {
    p1 + ['/'] + (p2 + ['/'] + (p3 + ['/'] + s))
  }

  lemma Join4Leading(p1: string, p2: string, p3: string, s: string)
    ensures Join4(p1, p2, p3, s) == p1 + ['/'] + (p2 + (['/'] + (p3 + ['/'] + s)))
  {
    assert p2 + ['/'] + (p3 + ['/'] + s) == p2 + (['/'] + (p3 + ['/'] + s));
  }

  lemma JoinFour(p1: string, p2: string, p3: string, s: string)
    ensures p1 + "/" + p2 + "/" + p3 + "/" + s == Join4(p1, p2, p3, s)
  {
  }

  lemma Four<T>(a: T, b: T, c: T, d: T, x: seq<T>, y: seq<T>, z: seq<T>)
    requires x == [a] + y && y == [b] + z && z == [c] + [d]
    ensures x == [a, b, c, d]
  {
  }

  /** Splitting four slash-free fields joined by slashes gives the four fields back. */
  lemma SplitFour(p1: string, p2: string, p3: string, s: string)
    requires '/' !in p1 && '/' !in p2 && '/' !in p3 && '/' !in s
    ensures Split(Join4(p1, p2, p3, s), "/") == [p1, p2, p3, s]
  {
    var r3 := p3 + ['/'] + s;
    var r2 := p2 + ['/'] + r3;
    SplitNoSep(s, '/');
    SplitOfJoin(p3, '/', s);
    SplitOfJoin(p2, '/', r3);
    SplitOfJoin(p1, '/', r2);
    Four(p1, p2, p3, s, Split(Join4(p1, p2, p3, s), ['/']), Split(r2, ['/']), Split(r3, ['/']));
  }

  lemma DigitsHaveNoSlash(d: string)
    requires IsDigits(d)
    ensures '/' !in d
    ensures Strip(d) == d
    ensures ParseFloat(d) == Some(DigitsValue(d) as real)
    ensures ParseInt(d) == Some(DigitsValue(d) as int)
  {
    assert forall i :: 0 <= i < |d| ==> IsDigit(d[i]);
    StripNoop(d);
    ParseFloatOfDigits(d);
  }

  /**
   * A four-field progress `P1/P2/P3/S` of whole numbers around a decimal `P3`
   * gives `(P2, S)` when `S` is positive, and otherwise falls back to its
   * first two fields.
   */
  lemma FourFieldProgress(p1: string, p2: string, p3: string, s: string)
    requires IsDigits(p1) && IsDigits(p2) && IsDigits(s)
    requires '/' !in p3 && ParseFloat(p3).Some?
    ensures var r := ParseProgress(Join4(p1, p2, p3, s));
            if DigitsValue(s) > 0 then r == Some((DigitsValue(p2) as real, DigitsValue(s)))
            else if DigitsValue(p2) > 0 then r == Some((DigitsValue(p1) as real, DigitsValue(p2)))
            else r == None
  {
    var line := Join4(p1, p2, p3, s);
    assert line[0] == p1[0] && line[|line| - 1] == s[|s| - 1];
    assert IsDigit(line[0]) && IsDigit(line[|line| - 1]);
    StripNoop(line);
    DigitsHaveNoSlash(p1);
    DigitsHaveNoSlash(p2);
    DigitsHaveNoSlash(s);
    SplitFour(p1, p2, p3, s);
    var parts := [p1, p2, p3, s];
    FourNumericFields(line, parts);
    assert parts[1] == p2 && parts[3] == s;
    assert ParseInt(parts[3]).value == DigitsValue(s);
    assert ParseFloat(parts[1]).value == DigitsValue(p2) as real;
    if DigitsValue(s) > 0 {
      assert ParseProgress(line) == Some((DigitsValue(p2) as real, DigitsValue(s)));
    } else {
      assert ParseProgress(line) == LeadingFraction(line);
      var rest := ['/'] + (p3 + ['/'] + s);
      Join4Leading(p1, p2, p3, s);
      LeadingFractionOfDigits(p1, p2, rest);
    }
  }

  /** A stripped progress string of four numeric fields gives the second field over a positive fourth, or falls back. */
  lemma FourNumericFields(t: string, parts: seq<string>)
    requires t != [] && Strip(t) == t && Split(t, "/") == parts && |parts| == 4
    requires ParseFloat(parts[0]).Some? && ParseFloat(parts[1]).Some? && ParseFloat(parts[2]).Some?
    requires ParseInt(parts[3]).Some?
    ensures ParseProgress(t) ==
              if ParseInt(parts[3]).value > 0 then Some((ParseFloat(parts[1]).value, ParseInt(parts[3]).value))
              else LeadingFraction(t)
  {
  }

  // ----- log lines -----

  const ConfigPrefix := "配置_"

  /** `配置_(\d+)` at the start of `t`. */
  function ConfigAt(t: string): Option<nat>
  {
    if StartsWith(t, ConfigPrefix) then
      var rest := t[|ConfigPrefix|..];
      var d := Run(rest, IsDigit);
      if d > 0 then Some(DigitsValue(rest[..d])) else None
    else None
  }

  /** `Status:\s*(SUCCESS|ERROR|FAILED)` at the start of `t`. */
  function StatusAt(t: string): Option<Status>
  {
    if StartsWith(t, "Status:") then
      var rest := TrimLeft(t[7..]);
      if StartsWith(rest, "SUCCESS") then Some(Success)
      else if StartsWith(rest, "ERROR") then Some(Error)
      else if StartsWith(rest, "FAILED") then Some(Failed)
      else None
    else None
  }

  predicate IsDigitOrUnderscore(c: char) { IsDigit(c) || c == '_' }

  /**
   * `File:\s*([\d_]+_agent_report\.txt)` at the start of `t`: the run of
   * digits and underscores must end in the underscore of `_agent_report.txt`.
   */
  function FileAt(t: string): Option<string>
  {
    if StartsWith(t, "File:") then
      var rest := TrimLeft(t[5..]);
      var r := Run(rest, IsDigitOrUnderscore);
      if r >= 2 && rest[r - 1] == '_' && StartsWith(rest[r..], "agent_report.txt") then
        Some(rest[..r] + "agent_report.txt")
      else None
    else None
  }

  /**
   * `Fail_reason:\s*(.+?)(?:\s=\{|$)` at the start of `t`, for a log line that
   * has a newline only at its end: it matches when a character other than
   * that newline follows the colon.
   */
  function FailReasonAt(t: string): Option<bool>
  {
    if StartsWith(t, "Fail_reason:") && 12 < |t| && t[12] != '\n' then Some(true) else None
  }

  /** What one log line records about its configuration. */
  datatype LogResult = LogResult(status: Status, resultType: ResultType, hasFailReason: bool, filename: string)

  /** The configuration and result a log line reports, or nothing for a line `parse_log_file` skips. */
  function ParseLine(line: string): (r: Option<(nat, LogResult)>)
    ensures r.Some? ==> Contains(line, ConfigPrefix) && Contains(line, "File:")
    ensures r.Some? ==> r.value.1.resultType == Classify(r.value.1.status, r.value.1.hasFailReason)
  {
    if !Contains(line, ConfigPrefix) || !Contains(line, "File:") then None
    else
      var config := Search(line, ConfigAt, 0);
      var status := Search(line, StatusAt, 0);
      var file := Search(line, FileAt, 0);
      if config.None? || status.None? || file.None? then None
      else
        var hasFailReason := Search(line, FailReasonAt, 0).Some?;
        var st := status.value.1;
        Some((config.value.1, LogResult(st, Classify(st, hasFailReason), hasFailReason, file.value.1)))
  }

  /** The `results` dictionary as its entries in insertion order. */
  datatype Entry = Entry(config: nat, result: LogResult)

  predicate DistinctConfigs(entries: seq<Entry>)
  {
    forall i, j :: 0 <= i < j < |entries| ==> entries[i].config != entries[j].config
  }

  function Lookup(entries: seq<Entry>, n: nat): Option<LogResult>
  {
    if entries == [] then None
    else if entries[|entries| - 1].config == n then Some(entries[|entries| - 1].result)
    else Lookup(entries[..|entries| - 1], n)
  }

  /** `results[n] = r`: a known key keeps its place and takes the new value, a new key goes last. */
  function Put(entries: seq<Entry>, n: nat, r: LogResult): (out: seq<Entry>)
    ensures |out| == |entries| || out == entries + [Entry(n, r)]
    ensures forall i :: 0 <= i < |entries| && entries[i].config != n ==> i < |out| && out[i] == entries[i]
    ensures forall i :: 0 <= i < |out| ==> out[i].config == n || out[i] in entries
    ensures Entry(n, r) in out
  {
    if entries == [] then [Entry(n, r)]
    else if entries[0].config == n then [Entry(n, r)] + entries[1..]
    else
      var rest := Put(entries[1..], n, r);
      assert forall i :: 1 <= i < |entries| ==> entries[i] == entries[1..][i - 1];
      [entries[0]] + rest
  }

  lemma {:induction false} PutKeepsDistinct(entries: seq<Entry>, n: nat, r: LogResult)
    requires DistinctConfigs(entries)
    ensures DistinctConfigs(Put(entries, n, r))
    ensures forall i :: 0 <= i < |Put(entries, n, r)| && Put(entries, n, r)[i].config == n ==> Put(entries, n, r)[i] == Entry(n, r)
  {
    if entries != [] && entries[0].config != n {
      var tail := entries[1..];
      assert forall i :: 0 <= i < |tail| ==> tail[i] == entries[i + 1];
      PutKeepsDistinct(tail, n, r);
      var rest := Put(tail, n, r);
      forall i | 0 <= i < |rest| ensures rest[i].config != entries[0].config {
        if rest[i].config != n {
          assert rest[i] in tail;
          var k :| 0 <= k < |tail| && tail[k] == rest[i];
          assert entries[k + 1] == rest[i];
        }
      }
    } else if entries != [] {
      var tail := entries[1..];
      assert forall i :: 0 <= i < |tail| ==> tail[i] == entries[i + 1];
    }
  }

  /** What `parse_log_file` gathers from the lines read so far. */
  function LogResults(lines: seq<string>): seq<Entry>
  {
    if lines == [] then []
    else
      var before := LogResults(lines[..|lines| - 1]);
      match ParseLine(lines[|lines| - 1])
      case None => before
      case Some((n, r)) => Put(before, n, r)
  }

  /** `parse_log_file` over the lines of the log. */
  method ParseLogFile(lines: seq<string>) returns (results: seq<Entry>)
    ensures results == LogResults(lines)
  {
    results := [];
    var i := 0;
    while i < |lines|
      invariant 0 <= i <= |lines|
      invariant results == LogResults(lines[..i])
    {
      assert lines[..i + 1][..i] == lines[..i];
      var parsed := ParseLine(lines[i]);
      if parsed.Some? {
        results := Put(results, parsed.value.0, parsed.value.1);
      }
      i := i + 1;
    }
    assert lines[..|lines|] == lines;
  }

  /** Each configuration appears once, and the last line reporting it decides its result. */
  lemma {:induction false} LaterLineWins(lines: seq<string>, line: string)
    requires DistinctConfigs(LogResults(lines))
    ensures DistinctConfigs(LogResults(lines + [line]))
    ensures ParseLine(line).None? ==> LogResults(lines + [line]) == LogResults(lines)
    ensures ParseLine(line).Some? ==>
              var n := ParseLine(line).value.0;
              forall e :: e in LogResults(lines + [line]) && e.config == n ==> e.result == ParseLine(line).value.1
  {
    assert (lines + [line])[..|lines|] == lines;
    if ParseLine(line).Some? {
      var (n, r) := ParseLine(line).value;
      PutKeepsDistinct(LogResults(lines), n, r);
    }
  }

  lemma {:induction false} LogResultsDistinct(lines: seq<string>)
    ensures DistinctConfigs(LogResults(lines))
  {
    if lines != [] {
      var init := lines[..|lines| - 1];
      LogResultsDistinct(init);
      var parsed := ParseLine(lines[|lines| - 1]);
      if parsed.Some? {
        PutKeepsDistinct(LogResults(init), parsed.value.0, parsed.value.1);
      }
    }
  }

  // ----- counting -----

  /** The four counts of a category and their total. */
  datatype Tally = Tally(trueSuccess: nat, falsePositive: nat, goalError: nat, planningError: nat, total: nat)

  const Zero := Tally(0, 0, 0, 0, 0)

  function Count(t: Tally, r: ResultType): nat
  {
    match r
    case TrueSuccess => t.trueSuccess
    case FalsePositive => t.falsePositive
    case GoalError => t.goalError
    case PlanningError => t.planningError
  }

  predicate Balanced(t: Tally)
  {
    t.total == t.trueSuccess + t.falsePositive + t.goalError + t.planningError
  }

  /** `categorized[category][result_type] += 1` and `categorized[category]["total"] += 1`. */
  function Add(t: Tally, r: ResultType): (u: Tally)
    ensures Count(u, r) == Count(t, r) + 1 && u.total == t.total + 1
    ensures forall s :: s != r ==> Count(u, s) == Count(t, s)
    ensures Balanced(t) ==> Balanced(u)
  {
    match r
    case TrueSuccess => t.(trueSuccess := t.trueSuccess + 1, total := t.total + 1)
    case FalsePositive => t.(falsePositive := t.falsePositive + 1, total := t.total + 1)
    case GoalError => t.(goalError := t.goalError + 1, total := t.total + 1)
    case PlanningError => t.(planningError := t.planningError + 1, total := t.total + 1)
  }

  /** The tally of category `c` over the entries. */
  function TallyOf(entries: seq<Entry>, c: Category): (t: Tally)
    ensures Balanced(t)
  {
    if entries == [] then Zero
    else
      var e := entries[|entries| - 1];
      var before := TallyOf(entries[..|entries| - 1], c);
      if CategoryOf(e.config) == Some(c) then Add(before, e.result.resultType) else before
  }

  /** How many entries have result type `r` and a number in `c`'s range. */
  function Matching(entries: seq<Entry>, c: Category, r: ResultType): nat
  {
    if entries == [] then 0
    else
      var e := entries[|entries| - 1];
      Matching(entries[..|entries| - 1], c, r) + (if InRange(c, e.config) && e.result.resultType == r then 1 else 0)
  }

  /** A category's count of a result type is the number of its configurations with that type. */
  lemma {:induction false} TallyCountsMatching(entries: seq<Entry>, c: Category, r: ResultType)
    ensures Count(TallyOf(entries, c), r) == Matching(entries, c, r)
  {
    if entries != [] {
      var e := entries[|entries| - 1];
      TallyCountsMatching(entries[..|entries| - 1], c, r);
      CategoriesPartition(e.config, c);
    }
  }

  ghost predicate Tallied(tallies: map<Category, Tally>, entries: seq<Entry>)
  {
    forall c: Category :: c in tallies && tallies[c] == TallyOf(entries, c)
  }

  /** The tallies after counting `e` in its category, if it has one. */
  function Record(tallies: map<Category, Tally>, e: Entry): map<Category, Tally>
    requires forall c: Category :: c in tallies
  {
    match CategoryOf(e.config)
    case None => tallies
    case Some(c) => tallies[c := Add(tallies[c], e.result.resultType)]
  }

  /** Counting one more entry keeps every category's tally equal to its count over the entries. */
  lemma TalliedStep(tallies: map<Category, Tally>, entries: seq<Entry>, e: Entry)
    requires Tallied(tallies, entries)
    ensures Tallied(Record(tallies, e), entries + [e])
  {
    assert (entries + [e])[..|entries|] == entries;
  }

  /** `categorize_results`: each entry counted in the first category whose range holds its number. */
  method CategorizeResults(entries: seq<Entry>) returns (tallies: map<Category, Tally>)
    ensures Tallied(tallies, entries)
  {
    tallies := map c | c in Categories :: Zero;
    forall c: Category ensures c in tallies {
      CategoryListed(c);
    }
    var i := 0;
    assert entries[..0] == [];
    while i < |entries|
      invariant 0 <= i <= |entries|
      invariant Tallied(tallies, entries[..i])
    {
      var e := entries[i];
      assert entries[..i + 1] == entries[..i] + [e];
      TalliedStep(tallies, entries[..i], e);
      tallies := CountEntry(tallies, e);
      i := i + 1;
    }
    assert entries[..|entries|] == entries;
  }

  /** The inner loop: count `e` in the first category whose range holds its number. */
  method CountEntry(tallies: map<Category, Tally>, e: Entry) returns (after: map<Category, Tally>)
    requires forall c: Category :: c in tallies
    ensures after == Record(tallies, e)
  {
    var k := 0;
    while k < |Categories|
      invariant 0 <= k <= |Categories|
      invariant CategoryOf(e.config) == FirstInRange(e.config, Categories[k..])
    {
      var c := Categories[k];
      assert Categories[k..] == [c] + Categories[k + 1..];
      if Range(c).0 <= e.config <= Range(c).1 {
        return tallies[c := Add(tallies[c], e.result.resultType)];
      }
      k := k + 1;
    }
    return tallies;
  }

  // ----- statistics -----

  /** Two tallies added field by field. */
  function Plus(a: Tally, b: Tally): Tally
  {
    Tally(a.trueSuccess + b.trueSuccess, a.falsePositive + b.falsePositive,
          a.goalError + b.goalError, a.planningError + b.planningError, a.total + b.total)
  }

  /** The sum of tallies, field by field (each `sum(...)` of `calculate_statistics`). */
  function Combine(ts: seq<Tally>): Tally
  {
    if ts == [] then Zero else Plus(ts[0], Combine(ts[1..]))
  }

  /** Summing a concatenation is summing the two parts. */
  lemma {:induction false} CombineAppend(xs: seq<Tally>, ys: seq<Tally>)
    ensures Combine(xs + ys) == Plus(Combine(xs), Combine(ys))
  {
    if xs == [] {
      assert xs + ys == ys;
    } else {
      var x, rest := xs[0], xs[1..];
      assert (xs + ys)[0] == x && (xs + ys)[1..] == rest + ys;
      CombineAppend(rest, ys);
      PlusAssociates(x, Combine(rest), Combine(ys));
    }
  }

  lemma PlusAssociates(a: Tally, b: Tally, c: Tally)
    ensures Plus(a, Plus(b, c)) == Plus(Plus(a, b), c)
  {
  }

  lemma CombineThree(a: Tally, b: Tally, c: Tally)
    ensures Combine([a, b, c]) == Plus(a, Plus(b, Plus(c, Zero)))
  {
    assert [c][1..] == [];
    assert Combine([c]) == Plus(c, Zero);
    assert [b, c][1..] == [c];
    assert Combine([b, c]) == Plus(b, Combine([c]));
    assert [a, b, c][1..] == [b, c];
  }

  /** The tallies of the categories `cats`, in that order. */
  function TalliesOf(tallies: map<Category, Tally>, cats: seq<Category>): (ts: seq<Tally>)
    requires forall c: Category :: c in tallies
    ensures |ts| == |cats| && forall i :: 0 <= i < |cats| ==> ts[i] == tallies[cats[i]]
  {
    seq(|cats|, i requires 0 <= i < |cats| => tallies[cats[i]])
  }

  /** The `"{level} (all)"` tally: the level's three difficulties summed. */
  function ForLevel(tallies: map<Category, Tally>, level: Level): Tally
    requires forall c: Category :: c in tallies
  {
    Combine(TalliesOf(tallies, [Category(level, General), Category(level, Medium), Category(level, Difficult)]))
  }

  /** The `"{diff} (all levels)"` tally: the difficulty's three levels summed. */
  function ForDifficulty(tallies: map<Category, Tally>, d: Difficulty): Tally
    requires forall c: Category :: c in tallies
  {
    Combine(TalliesOf(tallies, [Category(Obj, d), Category(Spatial, d), Category(Goal, d)]))
  }

  /** The OVERALL tally, over the categories in dictionary order. */
  function Overall(tallies: map<Category, Tally>): Tally
    requires forall c: Category :: c in tallies
  {
    Combine(TalliesOf(tallies, Categories))
  }

  /** A rate in percent, and 0 when there is nothing to count. */
  function Rate(count: nat, total: nat): (r: real)
    ensures total == 0 ==> r == 0.0
    ensures count <= total ==> 0.0 <= r <= 100.0
  {
    if total > 0 then (count as real / total as real) * 100.0 else 0.0
  }

  /** The number of entries whose configuration lies in 17..106. */
  function InAnyCategory(entries: seq<Entry>): nat
  {
    if entries == [] then 0
    else InAnyCategory(entries[..|entries| - 1]) + (if 17 <= entries[|entries| - 1].config <= 106 then 1 else 0)
  }

  /** The category totals of `cats`, summed. */
  function TotalOver(entries: seq<Entry>, cats: seq<Category>): nat
  {
    if cats == [] then 0 else TallyOf(entries, cats[0]).total + TotalOver(entries, cats[1..])
  }

  /** How many of `cats` configuration `n` is counted in. */
  function Hits(n: int, cats: seq<Category>): nat
  {
    if cats == [] then 0 else (if CategoryOf(n) == Some(cats[0]) then 1 else 0) + Hits(n, cats[1..])
  }

  lemma {:induction false} TotalOverStep(entries: seq<Entry>, e: Entry, cats: seq<Category>)
    ensures TotalOver(entries + [e], cats) == TotalOver(entries, cats) + Hits(e.config, cats)
  {
    assert (entries + [e])[..|entries|] == entries;
    if cats != [] {
      TotalOverStep(entries, e, cats[1..]);
    }
  }

  lemma {:induction false} HitsOfDistinct(n: int, cats: seq<Category>)
    requires forall i, j :: 0 <= i < j < |cats| ==> cats[i] != cats[j]
    ensures Hits(n, cats) == if CategoryOf(n).Some? && CategoryOf(n).value in cats then 1 else 0
  {
    if cats != [] {
      var tail := cats[1..];
      assert forall i, j :: 0 <= i < j < |tail| ==> tail[i] != tail[j] by {
        forall i, j | 0 <= i < j < |tail| ensures tail[i] != tail[j] {
          assert tail[i] == cats[i + 1] && tail[j] == cats[j + 1];
        }
      }
      HitsOfDistinct(n, tail);
    }
  }

  /** Summed over the nine categories, each configuration in 17..106 is counted once and no other is counted. */
  lemma {:induction false} NineTotalsCountInRange(entries: seq<Entry>)
    ensures TotalOver(entries, Categories) == InAnyCategory(entries)
  {
    if entries == [] {
      assert TotalOver([], Categories) == 0 by {
        ZeroTotals(Categories);
      }
    } else {
      var init, e := entries[..|entries| - 1], entries[|entries| - 1];
      assert init + [e] == entries;
      NineTotalsCountInRange(init);
      TotalOverStep(init, e, Categories);
      CategoriesDistinct();
      HitsOfDistinct(e.config, Categories);
      CategoriesPartition(e.config, Category(Obj, General));
      if CategoryOf(e.config).Some? {
        CategoryListed(CategoryOf(e.config).value);
      }
    }
  }

  lemma {:induction false} ZeroTotals(cats: seq<Category>)
    ensures TotalOver([], cats) == 0
  {
    if cats != [] {
      ZeroTotals(cats[1..]);
    }
  }

  /** The totals of the tallies of `cats`, added up. */
  function SumTotals(tallies: map<Category, Tally>, cats: seq<Category>): nat
    requires forall c: Category :: c in tallies
  {
    if cats == [] then 0 else tallies[cats[0]].total + SumTotals(tallies, cats[1..])
  }

  lemma {:induction false} CombinedTotal(tallies: map<Category, Tally>, cats: seq<Category>)
    requires forall c: Category :: c in tallies
    ensures Combine(TalliesOf(tallies, cats)).total == SumTotals(tallies, cats)
  {
    if cats != [] {
      var ts := TalliesOf(tallies, cats);
      assert ts[1..] == TalliesOf(tallies, cats[1..]);
      assert Combine(ts) == Plus(ts[0], Combine(TalliesOf(tallies, cats[1..])));
      CombinedTotal(tallies, cats[1..]);
    }
  }

  lemma TalliedAgree(tallies: map<Category, Tally>, entries: seq<Entry>, cats: seq<Category>)
    requires Tallied(tallies, entries)
    ensures forall i :: 0 <= i < |cats| ==> tallies[cats[i]].total == TallyOf(entries, cats[i]).total
  {
    forall i | 0 <= i < |cats| ensures tallies[cats[i]].total == TallyOf(entries, cats[i]).total {
      assert tallies[cats[i]] == TallyOf(entries, cats[i]);
    }
  }

  /** Tallies that agree with the category totals of `cats` add up to their sum. */
  lemma {:induction false} SumOfTallied(tallies: map<Category, Tally>, entries: seq<Entry>, cats: seq<Category>)
    requires forall c: Category :: c in tallies
    requires forall i :: 0 <= i < |cats| ==> tallies[cats[i]].total == TallyOf(entries, cats[i]).total
    ensures SumTotals(tallies, cats) == TotalOver(entries, cats)
  {
    if cats != [] {
      var tail := cats[1..];
      assert forall i :: 0 <= i < |tail| ==> tail[i] == cats[i + 1];
      SumOfTallied(tallies, entries, tail);
    }
  }

  /** The nine category tallies, grouped by level and by difficulty. */
  lemma NineTallies(tallies: map<Category, Tally>)
    requires forall c: Category :: c in tallies
    ensures Overall(tallies) == Plus(ForLevel(tallies, Obj), Plus(ForLevel(tallies, Spatial), ForLevel(tallies, Goal)))
    ensures Overall(tallies) ==
              Plus(ForDifficulty(tallies, General), Plus(ForDifficulty(tallies, Medium), ForDifficulty(tallies, Difficult)))
  {
    var all := TalliesOf(tallies, Categories);
    var obj := TalliesOf(tallies, Categories[..3]);
    var spatial := TalliesOf(tallies, Categories[3..6]);
    var goal := TalliesOf(tallies, Categories[6..]);
    assert all == obj + (spatial + goal);
    CombineAppend(obj, spatial + goal);
    CombineAppend(spatial, goal);
    assert Categories[..3] == [Category(Obj, General), Category(Obj, Medium), Category(Obj, Difficult)];
    assert Categories[3..6] == [Category(Spatial, General), Category(Spatial, Medium), Category(Spatial, Difficult)];
    assert Categories[6..] == [Category(Goal, General), Category(Goal, Medium), Category(Goal, Difficult)];
    DifficultyRegrouping(tallies);
  }

  lemma DifficultyRegrouping(tallies: map<Category, Tally>)
    requires forall c: Category :: c in tallies
    ensures Plus(ForLevel(tallies, Obj), Plus(ForLevel(tallies, Spatial), ForLevel(tallies, Goal))) ==
              Plus(ForDifficulty(tallies, General), Plus(ForDifficulty(tallies, Medium), ForDifficulty(tallies, Difficult)))
  {
    LevelTally(tallies, Obj);
    LevelTally(tallies, Spatial);
    LevelTally(tallies, Goal);
    DifficultyTally(tallies, General);
    DifficultyTally(tallies, Medium);
    DifficultyTally(tallies, Difficult);
  }

  lemma LevelTally(tallies: map<Category, Tally>, l: Level)
    requires forall c: Category :: c in tallies
    ensures ForLevel(tallies, l) ==
              Plus(tallies[Category(l, General)], Plus(tallies[Category(l, Medium)], Plus(tallies[Category(l, Difficult)], Zero)))
  {
    var cats := [Category(l, General), Category(l, Medium), Category(l, Difficult)];
    assert TalliesOf(tallies, cats) == [tallies[cats[0]], tallies[cats[1]], tallies[cats[2]]];
    CombineThree(tallies[cats[0]], tallies[cats[1]], tallies[cats[2]]);
  }

  lemma DifficultyTally(tallies: map<Category, Tally>, d: Difficulty)
    requires forall c: Category :: c in tallies
    ensures ForDifficulty(tallies, d) ==
              Plus(tallies[Category(Obj, d)], Plus(tallies[Category(Spatial, d)], Plus(tallies[Category(Goal, d)], Zero)))
  {
    var cats := [Category(Obj, d), Category(Spatial, d), Category(Goal, d)];
    assert TalliesOf(tallies, cats) == [tallies[cats[0]], tallies[cats[1]], tallies[cats[2]]];
    CombineThree(tallies[cats[0]], tallies[cats[1]], tallies[cats[2]]);
  }

  /**
   * `calculate_statistics`: the OVERALL tally counts each configuration in
   * 17..106 once, and it is both the sum of the three level tallies and the
   * sum of the three difficulty tallies.
   */
  lemma OverallTotals(tallies: map<Category, Tally>, entries: seq<Entry>)
    requires Tallied(tallies, entries)
    ensures Overall(tallies).total == InAnyCategory(entries)
    ensures Overall(tallies) == Plus(ForLevel(tallies, Obj), Plus(ForLevel(tallies, Spatial), ForLevel(tallies, Goal)))
    ensures Overall(tallies) ==
              Plus(ForDifficulty(tallies, General), Plus(ForDifficulty(tallies, Medium), ForDifficulty(tallies, Difficult)))
  {
    NineTotalsCountInRange(entries);
    CombinedTotal(tallies, Categories);
    TalliedAgree(tallies, entries, Categories);
    SumOfTallied(tallies, entries, Categories);
    NineTallies(tallies);
  }

  /** Every rate of a balanced tally lies between 0 and 100, and all are 0 for an empty one. */
  lemma RatesBounded(t: Tally, r: ResultType)
    requires Balanced(t)
    ensures 0.0 <= Rate(Count(t, r), t.total) <= 100.0
    ensures t.total == 0 ==> Rate(Count(t, r), t.total) == 0.0
  {
  }
}
