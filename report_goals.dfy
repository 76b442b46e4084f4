// What the report processor reads from a task goal and a user input
// (report_analysis/Auto_extract_report_data_batch.py): the task type, the
// configuration label `配置_N` and the number a log entry is sorted by.
module ReportGoals {
  import opened Text

  // ----- task type -----

  /** "by color" with "drawer", naming cubes and mugs: sort them into the drawers by colour. */
  predicate ByColourGoal(l: string)
  {
    Contains(l, "by color") && Contains(l, "drawer") && Contains(l, "cube") && Contains(l, "mug")
  }

  /** "corresponding" (or the longer phrase), naming cubes and mugs: each into the box of its colour. */
  predicate CorrespondingGoal(l: string)
  {
    (Contains(l, "corresponding") || Contains(l, "corresponding colored boxes")) && Contains(l, "cube") && Contains(l, "mug")
  }

  /** "different drawer" with milk, popcorn or book: one item per drawer layer. */
  predicate DifferentDrawerGoal(l: string)
  {
    Contains(l, "different drawer") && (Contains(l, "milk") || Contains(l, "popcorn") || Contains(l, "book"))
  }

  /**
   * `classify_task_type`: 2 for the three fixed goals, 1 for everything else.
   * The documented 0 for an unknown goal is never returned.
   */
  function ClassifyTaskType(goal: string): (t: nat)
    ensures t == 1 || t == 2
  {
    var l := Lower(goal);
    if ByColourGoal(l) then 2
    else if CorrespondingGoal(l) then 2
    else if DifferentDrawerGoal(l) then 2
    else 1
  }

  /** Type 2 is exactly the union of the three fixed goal kinds, read on the lowered goal. */
  lemma ClassifyTypeTwo(goal: string)
    ensures ClassifyTaskType(goal) == 2 <==>
              ByColourGoal(Lower(goal)) || CorrespondingGoal(Lower(goal)) || DifferentDrawerGoal(Lower(goal))
    ensures ClassifyTaskType(goal) != 0
  {
  }

  /** The longer "corresponding colored boxes" adds nothing: it contains "corresponding". */
  lemma CorrespondingPhraseSubsumed(l: string)
    ensures Contains(l, "corresponding colored boxes") ==> Contains(l, "corresponding")
  {
    if Contains(l, "corresponding colored boxes") {
      var i: nat :| i <= |l| && OccursAt(l, "corresponding colored boxes", i);
      assert l[i..i + 13] == l[i..i + 27][..13];
      assert OccursAt(l, "corresponding", i);
    }
  }

  // ----- configuration label -----

  const ConfigWord := "配置"

  predicate IsUnderscoreOrSpace(c: char) { c == '_' || IsSpace(c) }

  /**
   * `extract_config_number`: `re.match(r'(配置[_\s]*#?\s*\d+)', s)` stripped,
   * or "" when the input is empty or does not start that way. A `#` that is
   * not followed by digits fails the match: giving it back leaves a `#`
   * where a digit is needed.
   */
  function ExtractConfigNumber(userInput: string): (r: string)
    ensures r != [] ==> StartsWith(userInput, r) && StartsWith(r, ConfigWord) && IsDigit(r[|r| - 1])
    ensures StartsWith(userInput, ConfigWord) && LabelTail(userInput[2..]) > 0 ==> r == userInput[..2 + LabelTail(userInput[2..])]
  {
    if !StartsWith(userInput, ConfigWord) then ""
    else
      var n := LabelTail(userInput[2..]);
      if n == 0 then ""
      else
        var m := userInput[..2 + n];
        LabelStripped(userInput, n);
        Strip(m)
  }

  /** The length of `[_\s]*#?\s*\d+` at the head of `s`, or 0 when it does not match. */
  function LabelTail(s: string): (n: nat)
    ensures n <= |s|
    ensures n > 0 ==> IsDigit(s[n - 1])
  {
    var a := Run(s, IsUnderscoreOrSpace);
    var b := if a < |s| && s[a] == '#' then a + 1 else a;
    var c := b + Run(s[b..], IsSpace);
    var d := Run(s[c..], IsDigit);
    if d == 0 then 0
    else
      assert s[c + d - 1] == s[c..][d - 1];
      c + d
  }

  lemma LabelStripped(userInput: string, n: nat)
    requires StartsWith(userInput, ConfigWord) && 0 < n <= |userInput| - 2
    requires IsDigit(userInput[2..][n - 1])
    ensures Strip(userInput[..2 + n]) == userInput[..2 + n]
    ensures StartsWith(userInput[..2 + n], ConfigWord)
  {
    var m := userInput[..2 + n];
    assert m[|m| - 1] == userInput[2..][n - 1];
    assert m[0] == ConfigWord[0];
    StripNoop(m);
  }

  /** The label `配置_N` at the head of a user input is extracted whole. */
  lemma ConfigNumberRoundTrip(n: nat, rest: string)
    requires rest == [] || !IsDigit(rest[0])
    ensures ExtractConfigNumber(ConfigWord + "_" + NatToString(n) + rest) == ConfigWord + "_" + NatToString(n)
  {
    var ds := NatToString(n);
    var u := ConfigWord + "_" + ds + rest;
    var lbl := ConfigWord + "_" + ds;
    assert u == lbl + rest;
    assert u[2..] == "_" + ds + rest;
    assert StartsWith(u, ConfigWord) by { assert u[..2] == ConfigWord; }
    LabelTailOfDigits(ds, rest);
    assert |lbl| == 3 + |ds|;
    assert u[..|lbl|] == lbl;
  }

  lemma LabelTailOfDigits(ds: string, rest: string)
    requires IsDigits(ds)
    requires rest == [] || !IsDigit(rest[0])
    ensures LabelTail("_" + ds + rest) == 1 + |ds|
  {
    var s := "_" + ds + rest;
    assert !IsUnderscoreOrSpace(ds[0]) by { assert IsDigit(ds[0]); }
    assert AllChars("_", IsUnderscoreOrSpace);
    RunOfConcat("_", ds + rest, IsUnderscoreOrSpace);
    assert s[1..] == ds + rest;
    assert Run(s[1..], IsSpace) == 0 by { assert IsDigit(s[1]); }
    RunOfConcat(ds, rest, IsDigit);
  }

  // ----- sort key -----

  /** `re.search(r'\d+', s)`: the value of the first run of digits. */
  function FirstDigitRun(s: string): (r: Option<nat>)
    ensures (forall i :: 0 <= i < |s| ==> !IsDigit(s[i])) ==> r.None?
  {
    if s == [] then None
    else if IsDigit(s[0]) then
      var d := Run(s, IsDigit);
      Some(DigitsValue(s[..d]))
    else FirstDigitRun(s[1..])
  }

  const NoConfigKey: nat := 999999

  /** The `config_sort_key` of `create_log_entry`: the first digit run of the label, else 999999. */
  function SortKey(configNumber: string): (k: nat)
    ensures configNumber == [] ==> k == NoConfigKey
    ensures (forall i :: 0 <= i < |configNumber| ==> !IsDigit(configNumber[i])) ==> k == NoConfigKey
  {
    if configNumber == [] then NoConfigKey
    else
      match FirstDigitRun(configNumber)
      case Some(n) => n
      case None => NoConfigKey
  }

  /** Text without digits followed by a digit run leads to that run. */
  lemma {:induction false} FirstDigitRunAfter(p: string, ds: string, rest: string)
    requires forall i :: 0 <= i < |p| ==> !IsDigit(p[i])
    requires IsDigits(ds)
    requires rest == [] || !IsDigit(rest[0])
    ensures FirstDigitRun(p + ds + rest) == Some(DigitsValue(ds))
    decreases |p|
  {
    var s := p + ds + rest;
    if p == [] {
      assert s == ds + rest;
      RunOfConcat(ds, rest, IsDigit);
      assert s[..|ds|] == ds;
    } else {
      assert !IsDigit(s[0]);
      assert s[1..] == p[1..] + ds + rest;
      FirstDigitRunAfter(p[1..], ds, rest);
    }
  }

  /** A log entry for `配置_N` is sorted by N; one without a label sorts last. */
  lemma SortKeyOfLabel(n: nat)
    ensures SortKey(ConfigWord + "_" + NatToString(n)) == n
  {
    var p := ConfigWord + "_";
    assert forall i :: 0 <= i < |p| ==> !IsDigit(p[i]);
    FirstDigitRunAfter(p, NatToString(n), []);
    assert p + NatToString(n) + [] == ConfigWord + "_" + NatToString(n);
    NatToStringRoundTrip(n);
  }

  /** From a user input that starts with its label to the key its log entry is sorted by. */
  lemma InputSortsByConfig(n: nat, rest: string)
    requires rest == [] || !IsDigit(rest[0])
    ensures SortKey(ExtractConfigNumber(ConfigWord + "_" + NatToString(n) + rest)) == n
  {
    ConfigNumberRoundTrip(n, rest);
    SortKeyOfLabel(n);
  }
}
