// The agent's reading of text: the next action in a model reply, the task
// behind a numbered configuration line, and the retry hints and error kinds
// in API error messages.
module AgentText {
  import opened Text
  import opened ActionCommands

  // ----- the next action in a reply -----

  /** `re.sub(r"<think>.*?</think>", "", s, flags=re.DOTALL)`. */
  function RemoveThinkBlocks(s: string): (r: string)
    ensures !Contains(s, "<think>") ==> r == s
    ensures |r| <= |s|
    decreases |s|
  {
    match IndexOf(s, "<think>")
    case None => s
    case Some(i) =>
      var after := s[i + 7..];
      match IndexOf(after, "</think>")
      case None => s
      case Some(j) => s[..i] + RemoveThinkBlocks(after[j + 8..])
  }

  /** The first occurrence of a marker in `a + marker + b`, when no character of `a` can start it. */
  lemma FirstOccurrenceAfter(a: string, marker: string, b: string)
    requires marker != [] && marker[0] !in a
    ensures IndexOf(a + marker + b, marker) == Some(|a|)
  {
    var s := a + marker + b;
    OccursInConcat(a, marker, b);
  }

  /** A think block whose text has no '<' is cut out, and removal carries on after it. */
  lemma RemoveOneThinkBlock(a: string, b: string, c: string)
    requires '<' !in a && '<' !in b
    ensures RemoveThinkBlocks(a + "<think>" + b + "</think>" + c) == a + RemoveThinkBlocks(c)
  {
    var s := a + "<think>" + b + "</think>" + c;
    assert s == a + "<think>" + (b + "</think>" + c);
    FirstOccurrenceAfter(a, "<think>", b + "</think>" + c);
    var after := s[|a| + 7..];
    assert after == b + "</think>" + c;
    FirstOccurrenceAfter(b, "</think>", c);
    assert after[|b| + 8..] == c;
    assert s[..|a|] == a;
  }

  predicate NotLineBreak(c: char) { !IsLineBreak(c) }

  /** The pieces of `s` between line-break characters (str.splitlines() before empty lines are dropped). */
  function LinePieces(s: string): (r: seq<string>)
    ensures |r| >= 1
    decreases |s|
  {
    var n := Run(s, NotLineBreak);
    if n == |s| then [s] else [s[..n]] + LinePieces(s[n + 1..])
  }

  function ChunkLines(chunks: seq<string>): (r: seq<string>)
    ensures forall i :: 0 <= i < |r| ==> r[i] != [] && Strip(r[i]) == r[i]
  {
    if chunks == [] then []
    else StrippedNonEmpty(LinePieces(chunks[0])) + ChunkLines(chunks[1..])
  }

  /** The candidate actions: the reply without think blocks, split at commas and line breaks, stripped, non-empty. */
  function Candidates(text: string): (r: seq<string>)
    ensures forall i :: 0 <= i < |r| ==> r[i] != [] && Strip(r[i]) == r[i]
  {
    ChunkLines(Split(Strip(RemoveThinkBlocks(text)), ","))
  }

  /** `[\w/-]`, with `\w` restricted to ASCII. */
  predicate IsAgentNameChar(c: char) { IsWordChar(c) || c == '/' || c == '-' }
  predicate IsTrailChar(c: char) { IsSpace(c) || c == '.' }

  /** `^\s*(?:Action:\s*)?` */
  function AfterLabel(line: string): string
  {
    var t := TrimLeft(line);
    if StartsWith(t, "Action:") then TrimLeft(t[7..]) else t
  }

  /** `([\w/-]+)[\s\.]*$`: a name that only spaces and dots follow. */
  function FinalName(s: string): (r: Option<string>)
    ensures r.Some? ==> r.value != [] && AllChars(r.value, IsAgentNameChar)
  {
    var n := Run(s, IsAgentNameChar);
    if n > 0 && AllChars(s[n..], IsTrailChar) then Some(s[..n]) else None
  }

  /** What a reply line asks for, before the drawer names are completed. */
  datatype Proposal =
    | ToggleProposal(verb: string, obj: string)
    | MoveProposal(obj: string, prep: string, container: string)

  /** `(open|close)\s+NAME[\s.]*$` after the label. */
  function MatchOpenCloseLine(line: string): Option<Proposal>
  {
    var t := AfterLabel(line);
    var verb := if AfterWordAndSpace(t, "open").Some? then "open" else "close";
    match AfterWordAndSpace(t, verb)
    case None => None
    case Some(r) =>
      match FinalName(r)
      case None => None
      case Some(x) => Some(ToggleProposal(verb, x))
  }

  const Prepositions: seq<string> := ["on", "in", "into", "to"]

  /** `(on|in|into|to)\s+`, alternatives tried in that order. */
  function TakePreposition(s: string): Option<(string, string)>
  {
    if AfterWordAndSpace(s, "on").Some? then Some(("on", AfterWordAndSpace(s, "on").value))
    else if AfterWordAndSpace(s, "in").Some? then Some(("in", AfterWordAndSpace(s, "in").value))
    else if AfterWordAndSpace(s, "into").Some? then Some(("into", AfterWordAndSpace(s, "into").value))
    else if AfterWordAndSpace(s, "to").Some? then Some(("to", AfterWordAndSpace(s, "to").value))
    else None
  }

  /** `\s+(on|in|into|to)\s+NAME[\s.]*$` after the moved object. */
  function MatchMoveLineTail(s: string): Option<(string, string)>
  {
    var n := Run(s, IsSpace);
    if n == 0 then None
    else
      match TakePreposition(s[n..])
      case None => None
      case Some((prep, r)) =>
        match FinalName(r)
        case None => None
        case Some(container) => Some((prep, container))
  }

  /** `(move|put|Put)\s+`, alternatives tried in that order. */
  function AfterMoveVerb(t: string): Option<string>
  {
    if AfterWordAndSpace(t, "move").Some? then AfterWordAndSpace(t, "move")
    else if AfterWordAndSpace(t, "put").Some? then AfterWordAndSpace(t, "put")
    else AfterWordAndSpace(t, "Put")
  }

  /** `(move|put|Put)\s+NAME\s+PREP\s+NAME[\s.]*$` after the label. */
  function MatchMoveLine(line: string): Option<Proposal>
  {
    match AfterMoveVerb(AfterLabel(line))
    case None => None
    case Some(r1) =>
      var n := Run(r1, IsAgentNameChar);
      if n == 0 then None
      else
        match MatchMoveLineTail(r1[n..])
        case None => None
        case Some((prep, container)) => Some(MoveProposal(r1[..n], prep, container))
  }

  /** The open/close shape is tried before the move shape on each line. */
  function LineProposal(line: string): Option<Proposal>
  {
    if MatchOpenCloseLine(line).Some? then MatchOpenCloseLine(line) else MatchMoveLine(line)
  }

  /** The first line that matches either shape. */
  function FirstProposal(lines: seq<string>): (r: Option<Proposal>)
    ensures r.None? <==> forall k :: 0 <= k < |lines| ==> LineProposal(lines[k]).None?
    ensures r.Some? ==> exists k :: 0 <= k < |lines| && LineProposal(lines[k]) == r &&
                                    forall j :: 0 <= j < k ==> LineProposal(lines[j]).None?
  {
    if lines == [] then None
    else if LineProposal(lines[0]).Some? then LineProposal(lines[0])
    else
      var r := FirstProposal(lines[1..]);
      assert forall k :: 0 < k < |lines| ==> lines[k] == lines[1..][k - 1];
      r
  }

  /** The short drawer names completed to their cabinet paths; every other name unchanged. */
  function CanonicalName(name: string): (r: string)
    ensures name != "drawer_high" && name != "drawer_middle" && name != "drawer_low" ==> r == name
    ensures name == "drawer_high" || name == "drawer_middle" || name == "drawer_low" ==> r == "short_cabinet/" + name
  {
    if name == "drawer_high" then "short_cabinet/drawer_high"
    else if name == "drawer_middle" then "short_cabinet/drawer_middle"
    else if name == "drawer_low" then "short_cabinet/drawer_low"
    else name
  }

  /** Completing a name twice changes nothing more. */
  lemma CanonicalNameIdempotent(name: string)
    ensures CanonicalName(CanonicalName(name)) == CanonicalName(name)
  {
    var r := CanonicalName(name);
    if r != name {
      assert |r| > 13 && r[..14] == "short_cabinet/";
      assert r[0] == 's';
    }
  }

  /** The query the agent sends: every move, whatever its verb, is written as "move". */
  function Emit(p: Proposal): string
  {
    match p
    case ToggleProposal(verb, obj) => verb + " " + CanonicalName(obj)
    case MoveProposal(obj, prep, container) => "move " + CanonicalName(obj) + " " + prep + " " + CanonicalName(container)
  }

  /** The action query for the first matching line of a model reply, or None. */
  function ParseNextActionFromText(text: string): (r: Option<string>)
    ensures r.Some? <==> FirstProposal(Candidates(text)).Some?
  {
    match FirstProposal(Candidates(text))
    case None => None
    case Some(p) => Some(Emit(p))
  }

  // ----- lemmas: the line shapes -----

  lemma AfterLabelOfWord(s: string)
    requires s != [] && !IsSpace(s[0]) && s[0] != 'A'
    ensures AfterLabel(s) == s
  {
    assert Run(s, IsSpace) == 0;
    assert TrimLeft(s) == s;
  }

  lemma {:induction false} FinalNameOfName(x: string)
    requires x != [] && AllChars(x, IsAgentNameChar)
    ensures FinalName(x) == Some(x)
  {
    RunOfConcat(x, [], IsAgentNameChar);
    assert x + [] == x;
  }

  /** Each of the four prepositions is read back from "PREP NAME". */
  lemma TakePrepositionOfWord(p: string, b: string)
    requires p in Prepositions
    requires b != [] && !IsSpace(b[0])
    ensures TakePreposition(p + " " + b) == Some((p, b))
  {
    var s := p + " " + b;
    AfterWordAndSpaceOfConcat(p, b);
    assert s[0] == p[0] && s[1] == p[1];
    if p == "in" {
      assert AfterWordAndSpace(s, "on").None? by { assert s[0] == 'i'; }
    } else if p == "into" {
      assert AfterWordAndSpace(s, "on").None? by { assert s[0] == 'i'; }
      assert AfterWordAndSpace(s, "in").None? by {
        assert s[2] == 't';
        assert s[2..][0] == 't';
        assert Run(s[2..], IsSpace) == 0;
      }
    } else if p == "to" {
      assert s[0] == 't';
    }
  }

  lemma AfterMoveVerbOfWord(verb: string, rest: string)
    requires verb == "move" || verb == "put" || verb == "Put"
    requires rest == [] || !IsSpace(rest[0])
    ensures AfterMoveVerb(verb + " " + rest) == Some(rest)
  {
    var s := verb + " " + rest;
    AfterWordAndSpaceOfConcat(verb, rest);
    assert s[0] == verb[0];
    if verb != "move" {
      assert !StartsWith(s, "move");
    }
    if verb == "Put" {
      assert !StartsWith(s, "put");
    }
  }

  lemma MoveLineTailOfWords(p: string, b: string)
    requires p in Prepositions
    requires b != [] && AllChars(b, IsAgentNameChar)
    ensures MatchMoveLineTail(" " + p + " " + b) == Some((p, b))
  {
    var s := " " + (p + " " + b);
    assert " " + p + " " + b == s;
    RunOfConcat(" ", p + " " + b, IsSpace);
    assert s[1..] == p + " " + b;
    TakePrepositionOfWord(p, b);
    FinalNameOfName(b);
  }

  /** A move line with any of the three verbs reads back as the proposal it spells. */
  lemma MoveLineRoundTrip(verb: string, a: string, p: string, b: string)
    requires verb == "move" || verb == "put" || verb == "Put"
    requires a != [] && AllChars(a, IsAgentNameChar)
    requires b != [] && AllChars(b, IsAgentNameChar)
    requires p in Prepositions
    ensures MatchMoveLine(verb + " " + a + " " + p + " " + b) == Some(MoveProposal(a, p, b))
  {
    var tail := " " + p + " " + b;
    var s := verb + " " + (a + tail);
    assert verb + " " + a + " " + p + " " + b == s;
    assert s[0] == verb[0];
    AfterLabelOfWord(s);
    AfterMoveVerbOfWord(verb, a + tail);
    MoveLineTailOfWords(p, b);
    MatchMoveLineOf(s, a, tail, p, b);
  }

  /** Once the verb is read, a name followed by a matching tail makes the whole move line match. */
  lemma MatchMoveLineOf(line: string, a: string, tail: string, p: string, b: string)
    requires AfterMoveVerb(AfterLabel(line)) == Some(a + tail)
    requires a != [] && AllChars(a, IsAgentNameChar) && tail != [] && tail[0] == ' '
    requires MatchMoveLineTail(tail) == Some((p, b))
    ensures MatchMoveLine(line) == Some(MoveProposal(a, p, b))
  {
    RunOfConcat(a, tail, IsAgentNameChar);
    assert (a + tail)[..|a|] == a && (a + tail)[|a|..] == tail;
  }

  /** "open NAME" and "close NAME" read back as the toggle they spell. */
  lemma ToggleLineRoundTrip(v: Toggle, x: string)
    requires x != [] && AllChars(x, IsAgentNameChar)
    ensures LineProposal(ToggleWord(v) + " " + x) == Some(ToggleProposal(ToggleWord(v), x))
  {
    var verb := ToggleWord(v);
    var s := verb + " " + x;
    assert s[0] == verb[0];
    AfterLabelOfWord(s);
    AfterWordAndSpaceOfConcat(verb, x);
    if v == Close {
      assert !StartsWith(s, "open");
    }
    FinalNameOfName(x);
  }

  predicate IsPlainLineChar(c: char) { IsAgentNameChar(c) || c == ' ' }

  /** A reply of one line made of names and single spaces is its own only candidate. */
  lemma SingleLineCandidates(line: string)
    requires line != [] && AllChars(line, IsPlainLineChar)
    requires !IsSpace(line[0]) && !IsSpace(line[|line| - 1])
    ensures Candidates(line) == [line]
  {
    assert '<' !in line;
    ContainsNeedsChar(line, "<think>", '<');
    assert RemoveThinkBlocks(line) == line;
    StripNoop(line);
    assert ',' !in line;
    ContainsNeedsChar(line, ",", ',');
    assert Split(line, ",") == [line];
    RunOfConcat(line, [], NotLineBreak);
    assert line + [] == line;
    assert LinePieces(line) == [line];
    assert StrippedNonEmpty([line]) == [line];
    assert ChunkLines([line][1..]) == [];
  }

  /** A one-line reply is read by the line shapes alone. */
  lemma ReplyOfOneLine(line: string)
    requires line != [] && AllChars(line, IsPlainLineChar)
    requires !IsSpace(line[0]) && !IsSpace(line[|line| - 1])
    ensures ParseNextActionFromText(line) ==
            (if LineProposal(line).Some? then Some(Emit(LineProposal(line).value)) else None)
  {
    SingleLineCandidates(line);
    assert FirstProposal([line][1..]) == None;
  }

  /** End to end: a reply consisting of one move line yields the agent's "move" query for it. */
  lemma MoveReplyIsParsed(verb: string, a: string, p: string, b: string)
    requires verb == "move" || verb == "put" || verb == "Put"
    requires a != [] && AllChars(a, IsAgentNameChar)
    requires b != [] && AllChars(b, IsAgentNameChar)
    requires p in Prepositions
    ensures ParseNextActionFromText(verb + " " + a + " " + p + " " + b) == Some(Emit(MoveProposal(a, p, b)))
  {
    var rest := " " + a + " " + p + " " + b;
    var line := verb + rest;
    assert verb + " " + a + " " + p + " " + b == line;
    MoveLinePlain(verb, a, p, b);
    assert line[0] == verb[0] && line[|line| - 1] == b[|b| - 1];
    ReplyOfOneLine(line);
    MoveLineIsNoToggle(verb, rest);
    MoveLineRoundTrip(verb, a, p, b);
  }

  /** A move line is made of names and single spaces. */
  lemma MoveLinePlain(verb: string, a: string, p: string, b: string)
    requires verb == "move" || verb == "put" || verb == "Put"
    requires AllChars(a, IsAgentNameChar) && AllChars(b, IsAgentNameChar)
    requires p in Prepositions
    ensures AllChars(verb + " " + a + " " + p + " " + b, IsPlainLineChar)
  {
    assert AllChars(verb, IsPlainLineChar);
    assert AllChars(p, IsPlainLineChar) by {
      assert p == Prepositions[0] || p == Prepositions[1] || p == Prepositions[2] || p == Prepositions[3];
    }
    AllCharsConcat(verb + " ", a, IsPlainLineChar);
    AllCharsConcat(verb + " " + a + " ", p, IsPlainLineChar);
    AllCharsConcat(verb + " " + a + " " + p + " ", b, IsPlainLineChar);
  }

  lemma AllCharsConcat(x: string, y: string, q: char -> bool)
    requires AllChars(x, q) && AllChars(y, q)
    ensures AllChars(x + y, q)
  {
    forall i | 0 <= i < |x + y| ensures q((x + y)[i]) {
      if i >= |x| { assert (x + y)[i] == y[i - |x|]; }
    }
  }

  /** A move line never matches the open/close shape, so the move shape decides it. */
  lemma MoveLineIsNoToggle(verb: string, rest: string)
    requires verb == "move" || verb == "put" || verb == "Put"
    ensures LineProposal(verb + rest) == MatchMoveLine(verb + rest)
  {
    var s := verb + rest;
    AfterLabelOfWord(s);
    assert s[0] == verb[0];
    assert AfterWordAndSpace(s, "open").None?;
    assert AfterWordAndSpace(s, "close").None?;
  }

  /**
   * What the agent emits for a move is what the validator reads: the parser
   * gets back the completed names and the relation of the preposition.
   */
  lemma EmittedMoveIsUnderstood(obj: string, prep: string, container: string)
    requires prep in Prepositions
    requires IsLowerName(CanonicalName(obj)) && IsLowerName(CanonicalName(container))
    ensures ParseActionCommand(Emit(MoveProposal(obj, prep, container))) ==
            Some(MoveAction(CanonicalName(obj), RelationOfWord(prep).value, CanonicalName(container)))
  {
    var a, b := CanonicalName(obj), CanonicalName(container);
    assert prep in RelationWords by {
      assert prep == Prepositions[0] || prep == Prepositions[1] || prep == Prepositions[2] || prep == Prepositions[3];
    }
    MoveRoundTrip("move", a, prep, b);
    var e := Emit(MoveProposal(obj, prep, container));
    assert e == "move " + a + " " + prep + " " + b;
    assert "move " == "move" + " ";
  }

  /** The same for open and close. */
  lemma EmittedToggleIsUnderstood(v: Toggle, obj: string)
    requires IsLowerName(CanonicalName(obj))
    ensures ParseActionCommand(Emit(ToggleProposal(ToggleWord(v), obj))) == Some(ToggleAction(v, CanonicalName(obj)))
  {
    ToggleRoundTrip(v, CanonicalName(obj));
  }

  // ----- configuration lines -----

  predicate NotNewline(c: char) { c != '\n' }

  const ConfigPrefix := "配置_"

  /** `\d+:\s*(.*)` at the front of `rest`: the group, stripped. */
  function NumberedTask(rest: string): (r: Option<string>)
    ensures r.Some? ==> r.value == [] || (!IsSpace(r.value[0]) && !IsSpace(r.value[|r.value| - 1]))
  {
    var d := Run(rest, IsDigit);
    if d == 0 || d == |rest| || rest[d] != ':' then None
    else
      var tail := TrimLeft(rest[d + 1..]);
      Some(Strip(tail[..Run(tail, NotNewline)]))
  }

  /** `re.match(r"配置_\d+:\s*(.*)", s.strip())`, the group stripped; "" when it does not match. */
  function ExtractCfgTask(userInput: string): (r: string)
    ensures r == [] || (!IsSpace(r[0]) && !IsSpace(r[|r| - 1]))
  {
    var s := Strip(userInput);
    if !StartsWith(s, ConfigPrefix) then []
    else
      match NumberedTask(s[|ConfigPrefix|..])
      case None => []
      case Some(task) => task
  }

  /** The command the agent works on: the task of a configuration line, otherwise the input itself. */
  function AgentInputCommand(userInput: string): string
  {
    if StartsWith(userInput, ConfigPrefix) then ExtractCfgTask(userInput) else userInput
  }

  lemma NumberedTaskOf(digits: string, task: string)
    requires IsDigits(digits)
    requires '\n' !in task
    requires task == [] || (!IsSpace(task[0]) && !IsSpace(task[|task| - 1]))
    ensures NumberedTask(digits + ": " + task) == Some(task)
  {
    var after := ": " + task;
    var rest := digits + after;
    assert digits + ": " + task == rest;
    RunOfConcat(digits, after, IsDigit);
    assert rest[|digits|] == ':';
    assert rest[|digits| + 1..] == " " + task;
    RunOfConcat(" ", task, IsSpace);
    PlainTask(task);
    NumberedTaskFrom(rest, |digits|, task);
  }

  /** A task without line breaks or outer spaces is its own first line, stripped. */
  lemma PlainTask(task: string)
    requires '\n' !in task
    requires task == [] || (!IsSpace(task[0]) && !IsSpace(task[|task| - 1]))
    ensures Strip(task[..Run(task, NotNewline)]) == task
  {
    RunOfConcat(task, [], NotNewline);
    assert task + [] == task;
    assert task[..Run(task, NotNewline)] == task;
    StripNoop(task);
  }

  /** Digits, a colon, then text whose first line is `task` once spaces are trimmed. */
  lemma NumberedTaskFrom(rest: string, d: nat, task: string)
    requires 0 < d < |rest| && Run(rest, IsDigit) == d && rest[d] == ':'
    requires TrimLeft(rest[d + 1..]) == task
    requires Strip(task[..Run(task, NotNewline)]) == task
    ensures NumberedTask(rest) == Some(task)
  {
  }

  /** The task written after "配置_N: " comes back out. */
  lemma CfgTaskRoundTrip(n: nat, task: string)
    requires '\n' !in task
    requires task != [] && !IsSpace(task[0]) && !IsSpace(task[|task| - 1])
    ensures ExtractCfgTask(ConfigPrefix + NatToString(n) + ": " + task) == task
  {
    var rest := NatToString(n) + ": " + task;
    var s := ConfigPrefix + rest;
    assert ConfigPrefix + NatToString(n) + ": " + task == s;
    assert s[0] == '配';
    assert s[|s| - 1] == task[|task| - 1];
    StripNoop(s);
    assert s[|ConfigPrefix|..] == rest;
    NumberedTaskOf(NatToString(n), task);
  }

  // ----- API errors -----

  /** `tok\s*` at the front of `s`: what follows the spaces. */
  function AfterToken(s: string, tok: string): (r: Option<string>)
    ensures r.Some? ==> |r.value| <= |s| - |tok|
  {
    if StartsWith(s, tok) then Some(TrimLeft(s[|tok|..])) else None
  }

  /** The number in `retry_delay\s*\{\s*seconds:\s*(\d+)` at the front of `s`. */
  function RetryDelayAt(s: string): Option<nat>
  {
    match AfterToken(s, "retry_delay")
    case None => None
    case Some(r1) =>
      match AfterToken(r1, "{")
      case None => None
      case Some(r2) =>
        match AfterToken(r2, "seconds:")
        case None => None
        case Some(r3) =>
          var d := Run(r3, IsDigit);
          if d == 0 then None else Some(DigitsValue(r3[..d]))
  }

  /** The hint at the earliest position where it matches, at or after `from`. */
  function FirstRetryDelay(s: string, from: nat): (r: Option<nat>)
    ensures r.None? <==> forall i :: from <= i <= |s| ==> RetryDelayAt(s[i..]).None?
    decreases |s| - from
  {
    if from > |s| then None
    else if RetryDelayAt(s[from..]).Some? then RetryDelayAt(s[from..])
    else FirstRetryDelay(s, from + 1)
  }

  /** The suggested retry delay in an error message, or the configured base delay. */
  function ExtractRetryDelay(error: string, baseDelay: int): (r: int)
    ensures FirstRetryDelay(error, 0).None? ==> r == baseDelay
    ensures FirstRetryDelay(error, 0).Some? ==> r == FirstRetryDelay(error, 0).value
  {
    match FirstRetryDelay(error, 0)
    case None => baseDelay
    case Some(n) => n
  }

  lemma AfterTokenOfWords(tok: string, rest: string)
    requires rest == [] || !IsSpace(rest[0])
    ensures AfterToken(tok + " " + rest, tok) == Some(rest)
  {
    var s := tok + " " + rest;
    assert s[|tok|..] == " " + rest;
    RunOfConcat(" ", rest, IsSpace);
  }

  /** The hint written as "retry_delay { seconds: N" is read back as N. */
  lemma RetryDelayRoundTrip(n: nat, rest: string)
    requires rest == [] || !IsDigit(rest[0])
    ensures RetryDelayAt("retry_delay { seconds: " + NatToString(n) + rest) == Some(n)
  {
    var digits := NatToString(n);
    var r3 := digits + rest;
    var r2 := "seconds:" + " " + r3;
    var r1 := "{" + " " + r2;
    var s := "retry_delay" + " " + r1;
    RetryHintText(digits, rest);
    AfterTokenOfWords("retry_delay", r1);
    AfterTokenOfWords("{", r2);
    AfterTokenOfWords("seconds:", r3);
    RetryDelayAtOf(s, r1, r2, digits, rest);
    NatToStringRoundTrip(n);
  }

  lemma RetryHintText(digits: string, rest: string)
    ensures "retry_delay { seconds: " + digits + rest == "retry_delay" + " " + ("{" + " " + ("seconds:" + " " + (digits + rest)))
  {
  }

  /** The three tokens read, the digits that follow are the delay. */
  lemma RetryDelayAtOf(s: string, r1: string, r2: string, digits: string, rest: string)
    requires AfterToken(s, "retry_delay") == Some(r1) && AfterToken(r1, "{") == Some(r2)
    requires AfterToken(r2, "seconds:") == Some(digits + rest)
    requires IsDigits(digits) && (rest == [] || !IsDigit(rest[0]))
    ensures RetryDelayAt(s) == Some(DigitsValue(digits))
  {
    RunOfConcat(digits, rest, IsDigit);
    assert (digits + rest)[..|digits|] == digits;
  }

  const RateLimitIndicators: seq<string> :=
    ["429", "You exceeded your current quota", "rate limit", "quota_metric",
     "GenerateRequestsPerMinutePerProjectPerModel", "retry_delay"]

  const ServerErrorIndicators: seq<string> :=
    ["500", "internal error", "internal server error", "provider api error", "an internal error has occurred"]

  /** Some indicator, lowercased, occurs in the lowercased error. */
  predicate MentionsAny(error: string, indicators: seq<string>)
  {
    exists k :: 0 <= k < |indicators| && Contains(Lower(error), Lower(indicators[k]))
  }

  predicate IsRateLimitError(error: string) { MentionsAny(error, RateLimitIndicators) }
  predicate IsServerError(error: string) { MentionsAny(error, ServerErrorIndicators) }

  /** Lowercasing keeps every occurrence, lowercased. */
  lemma LowerKeepsContains(s: string, sub: string)
    requires Contains(s, sub)
    ensures Contains(Lower(s), Lower(sub))
  {
    var i: nat :| i <= |s| && OccursAt(s, sub, i);
    assert Lower(s)[i..i + |sub|] == Lower(sub);
    assert OccursAt(Lower(s), Lower(sub), i);
  }

  /** An error mentioning status 429 is a rate-limit error, one mentioning 500 a server error. */
  lemma StatusCodesClassify(error: string)
    ensures Contains(error, "429") ==> IsRateLimitError(error)
    ensures Contains(error, "500") ==> IsServerError(error)
  {
    assert Lower("429") == "429";
    assert Lower("500") == "500";
    if Contains(error, "429") {
      LowerKeepsContains(error, "429");
      assert Contains(Lower(error), Lower(RateLimitIndicators[0]));
    }
    if Contains(error, "500") {
      LowerKeepsContains(error, "500");
      assert Contains(Lower(error), Lower(ServerErrorIndicators[0]));
    }
  }
}
