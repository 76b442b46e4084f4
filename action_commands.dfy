// The command language accepted by the ValidateAndExecuteAction tool:
// "open X" / "close X" and "move|put X in|into|to|on|upon Y", each optionally
// behind an "action type N:" prefix, matched after trimming and lowercasing.
module ActionCommands {
  import opened Text

  datatype Toggle = Open | Close
  datatype Relation = In | On

  datatype ParsedAction =
    | ToggleAction(verb: Toggle, target: string)
    | MoveAction(source: string, relation: Relation, target: string)

  /** `[a-zA-Z_]` and `[a-zA-Z0-9_/]`, the two halves of the object-name pattern. */
  predicate IsNameStart(c: char) { IsLetter(c) || c == '_' }
  predicate IsNameChar(c: char) { IsLetter(c) || IsDigit(c) || c == '_' || c == '/' }

  /** A complete object name in lowercase, as the parser can return it. */
  predicate IsLowerName(x: string)
  {
    x != [] && IsNameStart(x[0]) && AllChars(x, IsNameChar) && Lower(x) == x
  }

  function ToggleWord(v: Toggle): string
  {
    match v
    case Open => "open"
    case Close => "close"
  }

  /** The five relation words, in the order the patterns try them. */
  const RelationWords: seq<string> := ["in", "into", "to", "on", "upon"]

  function RelationOfWord(w: string): Option<Relation>
  {
    if w == "in" || w == "into" then Some(In)
    else if w == "to" || w == "on" || w == "upon" then Some(On)
    else None
  }

  /** `word\s+` at the front of `s`; yields what follows the whitespace. */
  function AfterWordAndSpace(s: string, word: string): (r: Option<string>)
    ensures r.Some? ==> |r.value| < |s|
  {
    if StartsWith(s, word) then
      var rest := s[|word|..];
      var n := Run(rest, IsSpace);
      if n > 0 then Some(rest[n..]) else None
    else None
  }

  /** `[a-zA-Z_][a-zA-Z0-9_/]*` at the front of `s`: the name and what follows it. */
  function TakeName(s: string): (r: Option<(string, string)>)
  {
    if s != [] && IsNameStart(s[0]) then
      var n := 1 + Run(s[1..], IsNameChar);
      Some((s[..n], s[n..]))
    else None
  }

  /** `action\s+type\s+\d+\s*:\s*` at the front of `s`. */
  function AfterActionTypePrefix(s: string): Option<string>
  {
    match AfterWordAndSpace(s, "action")
    case None => None
    case Some(r1) =>
      match AfterWordAndSpace(r1, "type")
      case None => None
      case Some(r2) =>
        var d := Run(r2, IsDigit);
        if d == 0 then None
        else
          var r3 := TrimLeft(r2[d..]);
          if r3 != [] && r3[0] == ':' then Some(TrimLeft(r3[1..])) else None
  }

  /** `(open|close)\s+` at the front of `s`: the verb and what follows the whitespace. */
  function TakeToggleVerb(s: string): Option<(Toggle, string)>
  {
    match AfterWordAndSpace(s, "open")
    case Some(r) => Some((Open, r))
    case None =>
      match AfterWordAndSpace(s, "close")
      case Some(r) => Some((Close, r))
      case None => None
  }

  /** `(open|close)\s+NAME` at the front of `s`. */
  function MatchToggle(s: string): Option<ParsedAction>
  {
    match TakeToggleVerb(s)
    case None => None
    case Some((v, r)) =>
      match TakeName(r)
      case None => None
      case Some((x, _)) => Some(ToggleAction(v, x))
  }

  /** `(in|into|to|on|upon)\s+` at the front of `s`, alternatives tried in that order. */
  function TakeRelation(s: string): Option<(Relation, string)>
  {
    match AfterWordAndSpace(s, "in")
    case Some(r) => Some((In, r))
    case None =>
      match AfterWordAndSpace(s, "into")
      case Some(r) => Some((In, r))
      case None =>
        match AfterWordAndSpace(s, "to")
        case Some(r) => Some((On, r))
        case None =>
          match AfterWordAndSpace(s, "on")
          case Some(r) => Some((On, r))
          case None =>
            match AfterWordAndSpace(s, "upon")
            case Some(r) => Some((On, r))
            case None => None
  }

  /** `\s+RELATION\s+NAME` after the moved object's name. */
  function MatchMoveTail(s: string): Option<(Relation, string)>
  {
    var n := Run(s, IsSpace);
    if n == 0 then None
    else
      match TakeRelation(s[n..])
      case None => None
      case Some((rel, r)) =>
        match TakeName(r)
        case None => None
        case Some((target, _)) => Some((rel, target))
  }

  /** `VERB\s+NAME\s+RELATION\s+NAME` at the front of `s`. */
  function MatchMove(s: string, verb: string): Option<ParsedAction>
  {
    match AfterWordAndSpace(s, verb)
    case None => None
    case Some(r1) =>
      match TakeName(r1)
      case None => None
      case Some((source, r2)) =>
        match MatchMoveTail(r2)
        case None => None
        case Some((rel, target)) => Some(MoveAction(source, rel, target))
  }

  /**
   * The command parser: trim and lowercase, then the open/close shapes first,
   * then move and put, each bare and behind the prefix; None when nothing matches.
   */
  function ParseActionCommand(command: string): Option<ParsedAction>
  {
    ParseNormalised(Lower(Strip(command)))
  }

  function ParseNormalised(c: string): Option<ParsedAction>
  {
    var rest := AfterActionTypePrefix(c);
    if MatchToggle(c).Some? then MatchToggle(c)
    else if rest.Some? && MatchToggle(rest.value).Some? then MatchToggle(rest.value)
    else if MatchMove(c, "move").Some? then MatchMove(c, "move")
    else if rest.Some? && MatchMove(rest.value, "move").Some? then MatchMove(rest.value, "move")
    else if MatchMove(c, "put").Some? then MatchMove(c, "put")
    else if rest.Some? then MatchMove(rest.value, "put")
    else None
  }

  // ----- lemmas about the parser -----

  lemma AfterWordAndSpaceOfConcat(word: string, rest: string)
    requires rest == [] || !IsSpace(rest[0])
    ensures AfterWordAndSpace(word + " " + rest, word) == Some(rest)
  {
    var s := word + " " + rest;
    assert s[|word|..] == " " + rest;
    RunOfConcat(" ", rest, IsSpace);
    assert (" " + rest)[1..] == rest;
  }

  lemma {:induction false} TakeNameOfConcat(x: string, rest: string)
    requires x != [] && IsNameStart(x[0]) && AllChars(x, IsNameChar)
    requires rest == [] || !IsNameChar(rest[0])
    ensures TakeName(x + rest) == Some((x, rest))
  {
    var s := x + rest;
    assert s[1..] == x[1..] + rest;
    RunOfConcat(x[1..], rest, IsNameChar);
    assert s[..|x|] == x;
    assert s[|x|..] == rest;
  }

  lemma TakeWholeName(x: string)
    requires x != [] && IsNameStart(x[0]) && AllChars(x, IsNameChar)
    ensures TakeName(x) == Some((x, []))
  {
    TakeNameOfConcat(x, []);
    assert x + [] == x;
  }

  lemma LowerOfLower(s: string)
    ensures Lower(Lower(s)) == Lower(s)
  {
  }

  /** Lowercasing never turns whitespace into non-whitespace or back. */
  lemma LowerKeepsStrip(s: string)
    requires s == [] || (!IsSpace(s[0]) && !IsSpace(s[|s| - 1]))
    ensures Strip(Lower(s)) == Lower(s)
  {
    if s != [] {
      LowerCharKeepsSpace(s[0]);
      LowerCharKeepsSpace(s[|s| - 1]);
    }
    StripNoop(Lower(s));
  }

  /** A lowercase string with no whitespace at either end is already normalised. */
  lemma NormalisedIsFixed(s: string)
    requires Lower(s) == s
    requires s == [] || (!IsSpace(s[0]) && !IsSpace(s[|s| - 1]))
    ensures ParseActionCommand(s) == ParseNormalised(s)
  {
    StripNoop(s);
  }

  /** Parsing is insensitive to surrounding whitespace and case: it normalises first. */
  lemma ParseNormalises(command: string)
    ensures ParseActionCommand(Lower(Strip(command))) == ParseActionCommand(command)
  {
    var t := Strip(command);
    var c := Lower(t);
    LowerKeepsStrip(t);
    LowerOfLower(t);
    assert Lower(Strip(c)) == c;
  }

  /** Every relation word normalises: in/into to In, to/on/upon to On. */
  lemma RelationWordsNormalise(w: string)
    ensures RelationOfWord(w).Some? <==> w in RelationWords
    ensures RelationOfWord(w) == Some(In) <==> (w == "in" || w == "into")
  {
  }

  /** The relation words start with a letter and hold no capital. */
  lemma RelationWordFacts(w: string)
    requires w in RelationWords
    ensures w != [] && IsLetter(w[0]) && !IsSpace(w[0])
    ensures NoUpper(w)
  {
    assert w == "in" || w == "into" || w == "to" || w == "on" || w == "upon";
    assert w[0] == 'i' || w[0] == 't' || w[0] == 'o' || w[0] == 'u';
    assert forall c :: c in w ==> 'a' <= c <= 'z';
  }

  lemma TakeRelationOfWord(w: string, rest: string)
    requires w in RelationWords
    requires rest == [] || !IsSpace(rest[0])
    ensures TakeRelation(w + " " + rest) == Some((RelationOfWord(w).value, rest))
  {
    var s := w + " " + rest;
    AfterWordAndSpaceOfConcat(w, rest);
    if w != "in" {
      assert s[0] != 'i' || s[2] == 't';
      assert AfterWordAndSpace(s, "in") == None;
    }
    if w != "in" && w != "into" {
      assert AfterWordAndSpace(s, "into") == None;
    }
    if w == "on" || w == "upon" {
      assert AfterWordAndSpace(s, "to") == None;
    }
    if w == "upon" {
      assert AfterWordAndSpace(s, "on") == None;
    }
  }

  lemma LowerNameFacts(x: string)
    requires IsLowerName(x)
    ensures !IsSpace(x[0]) && !IsSpace(x[|x| - 1])
  {
    assert IsNameChar(x[|x| - 1]);
  }

  /** "open X" and "close X" parse back to the toggle they spell, for every lowercase name. */
  lemma ToggleRoundTrip(v: Toggle, x: string)
    requires IsLowerName(x)
    ensures ParseActionCommand(ToggleWord(v) + " " + x) == Some(ToggleAction(v, x))
  {
    var s := ToggleWord(v) + " " + x;
    ToggleIsNormalised(v, x);
    AfterWordAndSpaceOfConcat(ToggleWord(v), x);
    TakeWholeName(x);
    if v == Close {
      AfterWordNeedsFirst(s, "open");
    }
    assert MatchToggle(s) == Some(ToggleAction(v, x));
  }

  lemma ToggleIsNormalised(v: Toggle, x: string)
    requires IsLowerName(x)
    ensures ParseActionCommand(ToggleWord(v) + " " + x) == ParseNormalised(ToggleWord(v) + " " + x)
  {
    var s := ToggleWord(v) + " " + x;
    LowerNameFacts(x);
    LowerFixedIff(x);
    assert NoUpper(ToggleWord(v) + " ");
    assert NoUpper(s);
    LowerFixedIff(s);
    assert s[|s| - 1] == x[|x| - 1];
    NormalisedIsFixed(s);
  }

  lemma MatchMoveTailOfConcat(w: string, b: string)
    requires IsLowerName(b)
    requires w in RelationWords
    ensures MatchMoveTail(" " + w + " " + b) == Some((RelationOfWord(w).value, b))
  {
    var tail := w + " " + b;
    assert " " + w + " " + b == " " + tail;
    LowerNameFacts(b);
    RelationWordFacts(w);
    assert tail[0] == w[0];
    RunOfConcat(" ", tail, IsSpace);
    assert (" " + tail)[1..] == tail;
    TakeRelationOfWord(w, b);
    TakeWholeName(b);
  }

  lemma MatchMoveOfConcat(verb: string, a: string, w: string, b: string)
    requires IsLowerName(a) && IsLowerName(b)
    requires w in RelationWords
    ensures MatchMove(verb + " " + a + " " + w + " " + b, verb)
         == Some(MoveAction(a, RelationOfWord(w).value, b))
  {
    var r2 := " " + w + " " + b;
    var r1 := a + r2;
    var s := verb + " " + a + " " + w + " " + b;
    Regroup(verb, a, w, b);
    LowerNameFacts(a);
    AfterWordAndSpaceOfConcat(verb, r1);
    TakeNameOfConcat(a, r2);
    MatchMoveTailOfConcat(w, b);
  }

  lemma Regroup(verb: string, a: string, w: string, b: string)
    ensures verb + " " + a + " " + w + " " + b == verb + " " + (a + (" " + w + " " + b))
  {
  }

  lemma MoveCommandIsNormalised(verb: string, a: string, w: string, b: string)
    requires verb == "move" || verb == "put"
    requires IsLowerName(a) && IsLowerName(b)
    requires w in RelationWords
    ensures var s := verb + " " + a + " " + w + " " + b;
      ParseActionCommand(s) == ParseNormalised(s)
  {
    var s := verb + " " + a + " " + w + " " + b;
    LowerNameFacts(b);
    RelationWordFacts(w);
    LowerFixedIff(a);
    LowerFixedIff(b);
    assert NoUpper(verb) && NoUpper(" ");
    assert NoUpper(s);
    LowerFixedIff(s);
    assert s[|s| - 1] == b[|b| - 1];
    NormalisedIsFixed(s);
  }

  /** `word\s+` cannot match where the first character differs from the word's. */
  lemma AfterWordNeedsFirst(s: string, word: string)
    requires word != [] && (s == [] || s[0] != word[0])
    ensures AfterWordAndSpace(s, word) == None
  {
  }

  /** Which shapes the first character of a normalised command leaves open. */
  lemma FirstCharRulesOut(s: string)
    requires s != []
    ensures s[0] != 'o' && s[0] != 'c' ==> MatchToggle(s) == None
    ensures s[0] != 'a' ==> AfterActionTypePrefix(s) == None
    ensures s[0] != 'm' ==> MatchMove(s, "move") == None
    ensures s[0] != 'p' ==> MatchMove(s, "put") == None
  {
    if s[0] != 'o' && s[0] != 'c' {
      AfterWordNeedsFirst(s, "open");
      AfterWordNeedsFirst(s, "close");
    }
    if s[0] != 'a' {
      AfterWordNeedsFirst(s, "action");
    }
    if s[0] != 'm' {
      AfterWordNeedsFirst(s, "move");
    }
    if s[0] != 'p' {
      AfterWordNeedsFirst(s, "put");
    }
  }

  /** "VERB A WORD B" parses to the move it spells, for both verbs and all five relation words. */
  lemma MoveRoundTrip(verb: string, a: string, w: string, b: string)
    requires verb == "move" || verb == "put"
    requires IsLowerName(a) && IsLowerName(b)
    requires w in RelationWords
    ensures ParseActionCommand(verb + " " + a + " " + w + " " + b)
         == Some(MoveAction(a, RelationOfWord(w).value, b))
  {
    var s := verb + " " + a + " " + w + " " + b;
    MoveCommandIsNormalised(verb, a, w, b);
    MatchMoveOfConcat(verb, a, w, b);
    assert s[0] == verb[0];
    FirstCharRulesOut(s);
  }

  /** A command whose first character can start none of the shapes is rejected. */
  lemma UnknownShapeRejected(command: string)
    requires var c := Lower(Strip(command));
      c == [] || c[0] !in {'o', 'c', 'm', 'p', 'a'}
    ensures ParseActionCommand(command) == None
  {
    var c := Lower(Strip(command));
    if c == [] {
      AfterWordNeedsFirst(c, "open");
      AfterWordNeedsFirst(c, "close");
      AfterWordNeedsFirst(c, "action");
      AfterWordNeedsFirst(c, "move");
      AfterWordNeedsFirst(c, "put");
    } else {
      FirstCharRulesOut(c);
    }
  }

  // ----- the "action type N:" / "step N:" stripper used in reports -----

  /** Case-insensitive `word\s+` at the front of `s`. */
  function AfterWordAndSpaceIgnoringCase(s: string, word: string): Option<string>
  {
    if |word| <= |s| && Lower(s[..|word|]) == word then
      var rest := s[|word|..];
      var n := Run(rest, IsSpace);
      if n > 0 then Some(rest[n..]) else None
    else None
  }

  /** `\d+\s*:\s*(.+)$` behind a prefix: the captured text, when it holds no newline. */
  function NumberedTail(s: string): Option<string>
  {
    var d := Run(s, IsDigit);
    if d == 0 then None
    else
      var r := TrimLeft(s[d..]);
      if r != [] && r[0] == ':' then
        var tail := TrimLeft(r[1..]);
        if tail != [] && '\n' !in tail then Some(Strip(tail)) else None
      else None
  }

  /** `^action\s+type\s+\d+\s*:\s*(.+)$`, ignoring case. */
  function ActionTypeTail(s: string): Option<string>
  {
    match AfterWordAndSpaceIgnoringCase(s, "action")
    case None => None
    case Some(r) =>
      match AfterWordAndSpaceIgnoringCase(r, "type")
      case None => None
      case Some(r2) => NumberedTail(r2)
  }

  /** `^step\s+\d+\s*:\s*(.+)$`, ignoring case. */
  function StepTail(s: string): Option<string>
  {
    match AfterWordAndSpaceIgnoringCase(s, "step")
    case None => None
    case Some(r) => NumberedTail(r)
  }

  /**
   * The core of an action line: the text after an "action type N:" or
   * "step N:" prefix (either case), or the whole trimmed line.
   */
  function ExtractCoreAction(action: string): string
  {
    CoreOfTrimmed(Strip(action))
  }

  function CoreOfTrimmed(s: string): string
  {
    if ActionTypeTail(s).Some? then ActionTypeTail(s).value
    else if StepTail(s).Some? then StepTail(s).value
    else s
  }

  lemma AfterWordIgnoringCaseOfConcat(word: string, rest: string)
    requires Lower(word) == word
    requires rest == [] || !IsSpace(rest[0])
    ensures AfterWordAndSpaceIgnoringCase(word + " " + rest, word) == Some(rest)
  {
    var s := word + " " + rest;
    assert s[..|word|] == word;
    assert s[|word|..] == " " + rest;
    RunOfConcat(" ", rest, IsSpace);
    assert (" " + rest)[1..] == rest;
  }

  lemma TrimLeftOfSpaced(c: string)
    requires c == [] || !IsSpace(c[0])
    ensures TrimLeft(" " + c) == c
  {
    RunOfConcat(" ", c, IsSpace);
    assert (" " + c)[1..] == c;
  }

  lemma NumberedTailOfConcat(ds: string, c: string)
    requires IsDigits(ds)
    requires c != [] && !IsSpace(c[0]) && !IsSpace(c[|c| - 1]) && '\n' !in c
    ensures NumberedTail(ds + ": " + c) == Some(c)
  {
    var s := ds + ": " + c;
    var after := ": " + c;
    assert s == ds + after;
    RunOfConcat(ds, after, IsDigit);
    assert s[|ds|..] == after;
    assert Run(after, IsSpace) == 0;
    assert TrimLeft(after) == after;
    assert after[1..] == " " + c;
    TrimLeftOfSpaced(c);
    StripNoop(c);
  }

  lemma ActionTypeTailOfConcat(ds: string, c: string)
    requires IsDigits(ds)
    requires c != [] && !IsSpace(c[0]) && !IsSpace(c[|c| - 1]) && '\n' !in c
    ensures ActionTypeTail("action" + " " + ("type" + " " + (ds + ": " + c))) == Some(c)
  {
    var r2 := ds + ": " + c;
    var r := "type" + " " + r2;
    assert r[0] == 't';
    assert r2[0] == ds[0];
    AfterWordIgnoringCaseOfConcat("action", r);
    AfterWordIgnoringCaseOfConcat("type", r2);
    NumberedTailOfConcat(ds, c);
  }

  /** The prefix is removed again: "action type N: C" yields C for a trimmed one-line C. */
  lemma ExtractCoreRoundTrip(n: nat, c: string)
    requires c != [] && !IsSpace(c[0]) && !IsSpace(c[|c| - 1]) && '\n' !in c
    ensures ExtractCoreAction("action type " + (NatToString(n) + ": " + c)) == c
  {
    var ds := NatToString(n);
    var s := "action" + " " + ("type" + " " + (ds + ": " + c));
    ActionTypeWords(ds + ": " + c);
    assert s[0] == 'a' && s[|s| - 1] == c[|c| - 1];
    StripNoop(s);
    ActionTypeTailOfConcat(ds, c);
    CoreOfActionTypeLine(s, c);
  }

  lemma ActionTypeWords(x: string)
    ensures "action type " + x == "action" + " " + ("type" + " " + x)
  {
  }

  lemma CoreOfActionTypeLine(s: string, c: string)
    requires ActionTypeTail(s) == Some(c)
    ensures CoreOfTrimmed(s) == c
  {
  }

  /**
   * Lines whose trimmed text does not start with the word "action" or "step"
   * followed by whitespace, in any case, are only trimmed.
   */
  lemma ExtractCoreOfPlainLine(action: string)
    requires AfterWordAndSpaceIgnoringCase(Strip(action), "action").None?
    requires AfterWordAndSpaceIgnoringCase(Strip(action), "step").None?
    ensures ExtractCoreAction(action) == Strip(action)
  {
  }
}
