// How the different-drawer judge reads a goal written the way the benchmark
// writes them (report_analysis/Auto_extract_report_data_batch.py, the
// `items_to_place` extraction): "place the a, the b, and the c into
// different drawer layers" names exactly the items a, b and c.
module DrawerGoals {
  import opened Text
  import opened DrawerItems

  predicate IsLowerLetter(c: char) { 'a' <= c <= 'z' }

  /** A lower-case word, as the goals name their items. */
  predicate Word(w: string) { w != [] && AllChars(w, IsLowerLetter) }

  // ----- cleaning one piece -----

  /** A word has no whitespace, `the ` or `.` to remove and nothing to lower. */
  lemma CleanWord(w: string)
    requires Word(w)
    ensures CleanItem(w) == w
  {
    assert IsLowerLetter(w[0]) && IsLowerLetter(w[|w| - 1]);
    StripNoop(w);
    WordKept(w);
  }

  /** `the ` before a word is removed. */
  lemma CleanTheWord(w: string)
    requires Word(w)
    ensures CleanItem("the " + w) == w
  {
    var s := "the " + w;
    assert IsLowerLetter(w[|w| - 1]) && s[|s| - 1] == w[|w| - 1];
    StripNoop(s);
    ReplaceHead("the ", w);
    WordKept(w);
  }

  /** Replacing a pattern that a string starts with removes that occurrence first. */
  lemma ReplaceHead(pattern: string, rest: string)
    requires pattern != []
    ensures ReplaceAll(pattern + rest, pattern, "") == ReplaceAll(rest, pattern, "")
  {
    var s := pattern + rest;
    assert s[..|pattern|] == pattern;
    assert IndexOf(s, pattern) == Some(0);
    assert s[|pattern|..] == rest;
  }

  /** A word keeps itself through removing `the ` and `.` and lowering. */
  lemma WordKept(w: string)
    requires Word(w)
    ensures ReplaceAll(w, "the ", "") == w
    ensures Lower(ReplaceAll(w, ".", "")) == w
  {
    assert ' ' !in w && '.' !in w by {
      forall k | 0 <= k < |w| ensures w[k] != ' ' && w[k] != '.' { assert IsLowerLetter(w[k]); }
    }
    ContainsNeedsChar(w, "the ", ' ');
    ContainsNeedsChar(w, ".", '.');
    assert NoUpper(w) by {
      forall k | 0 <= k < |w| ensures !IsUpper(w[k]) { assert IsLowerLetter(w[k]); }
    }
    LowerFixedIff(w);
  }

  // ----- splitting the list -----

  /** No separator starts at a lower-case letter. */
  lemma LetterNoSeparator(t: string)
    requires t != [] && IsLowerLetter(t[0])
    ensures SeparatorLen(t) == 0
  {
    assert !IsSpace(t[0]);
  }

  /** No separator starts inside a word. */
  lemma WordNoSeparator(w: string, tail: string)
    requires Word(w)
    ensures forall j :: 0 <= j < |w| ==> SeparatorLen((w + tail)[j..]) == 0
  {
    forall j | 0 <= j < |w| ensures SeparatorLen((w + tail)[j..]) == 0 {
      assert (w + tail)[j..][0] == w[j];
      LetterNoSeparator((w + tail)[j..]);
    }
  }

  /** A space before a word followed by a comma or nothing is no separator, even before a word starting with `and`. */
  lemma SpaceWordNoSeparator(w: string, tail: string)
    requires Word(w)
    requires tail == [] || tail[0] == ','
    ensures SeparatorLen(" " + w + tail) == 0
  {
    var s := " " + w + tail;
    assert !IsSpace(s[1]) by { assert s[1] == w[0] && IsLowerLetter(w[0]); }
    assert Run(s, IsSpace) == 1 by { assert s[1..][0] == s[1]; }
    if |w| >= 3 {
      assert s[4..] == [] || !IsSpace(s[4..][0]) by {
        if |w| > 3 { assert s[4] == w[3] && IsLowerLetter(w[3]); }
        else if tail != [] { assert s[4] == tail[0]; }
      }
    } else if tail != [] && 4 <= |s| {
      assert s[1..4][|w|] == s[1 + |w|] == tail[0];
    }
  }

  /** No separator starts inside `the ` and a word, before a comma or the end. */
  lemma TheWordNoSeparator(w: string, tail: string)
    requires Word(w)
    requires tail == [] || tail[0] == ','
    ensures forall j :: 0 <= j < 4 + |w| ==> SeparatorLen(("the " + w + tail)[j..]) == 0
  {
    var s := "the " + w + tail;
    forall j | 0 <= j < 4 + |w| ensures SeparatorLen(s[j..]) == 0 {
      if j < 3 {
        assert s[j..][0] == "the"[j];
        LetterNoSeparator(s[j..]);
      } else if j == 3 {
        assert s[3..] == " " + w + tail;
        SpaceWordNoSeparator(w, tail);
      } else {
        assert s[j..][0] == w[j - 4] && IsLowerLetter(w[j - 4]);
        LetterNoSeparator(s[j..]);
      }
    }
  }

  /** `, the...`: the comma and its space. */
  lemma CommaSeparator(rest: string)
    requires rest != [] && IsLowerLetter(rest[0]) && !StartsWith(rest, "and")
    ensures SeparatorLen(", " + rest) == 2
  {
    var t := ", " + rest;
    assert t[1..] == " " + rest;
    assert !IsSpace(rest[0]);
    assert Run(t[1..], IsSpace) == 1 by { assert t[1..][1..] == rest; }
    if 5 <= |t| {
      assert t[2..5] == rest[..3];
    }
  }

  /** `, and the...`: the comma, `and` and the spaces around it. */
  lemma CommaAndSeparator(rest: string)
    requires rest != [] && IsLowerLetter(rest[0])
    ensures SeparatorLen(", and " + rest) == 6
  {
    var t := ", and " + rest;
    assert !IsSpace(rest[0]);
    assert t[1..][0] == ' ' && t[1..][1] == 'a';
    assert Run(t[1..], IsSpace) == 1;
    assert t[2..5] == "and";
    assert t[5..][0] == ' ' && t[5..][1..] == rest;
    assert Run(t[5..], IsSpace) == 1;
  }

  /** The search passes over positions where no separator starts. */
  lemma {:induction false} SkipTo(s: string, m: string -> nat, p: nat, q: nat)
    requires p <= q <= |s|
    requires forall j :: p <= j < q ==> m(s[j..]) == 0
    ensures NextSeparator(s, m, p) == NextSeparator(s, m, q)
    decreases q - p
  {
    if p < q {
      SkipTo(s, m, p + 1, q);
    }
  }

  /** The first position where a separator starts is the one found. */
  lemma FirstAt(s: string, m: string -> nat, i: nat)
    requires i < |s|
    requires forall j :: 0 <= j < i ==> m(s[j..]) == 0
    requires m(s[i..]) > 0
    ensures NextSeparator(s, m, 0) == Some(i)
  {
    SkipTo(s, m, 0, i);
  }

  /** Where the first separator is found, the first piece ends. */
  lemma SplitAt(s: string, m: string -> nat, i: nat)
    requires forall t :: m(t) <= |t|
    requires NextSeparator(s, m, 0) == Some(i)
    ensures SplitBy(s, m) == [s[..i]] + SplitBy(s[i + m(s[i..])..], m)
  {
  }

  /** A piece with no separator inside, then a separator of length `n`, splits off that piece. */
  lemma SplitFirst(p: string, tail: string, m: string -> nat, n: nat)
    requires forall t :: m(t) <= |t|
    requires forall j :: 0 <= j < |p| ==> m((p + tail)[j..]) == 0
    requires 0 < n && m(tail) == n
    ensures SplitBy(p + tail, m) == [p] + SplitBy(tail[n..], m)
  {
    var s := p + tail;
    assert s[|p|..] == tail;
    FirstAt(s, m, |p|);
    SplitAt(s, m, |p|);
    assert s[..|p|] == p && s[|p| + n..] == tail[n..];
  }

  /** A piece with no separator anywhere is the only piece. */
  lemma SplitLast(p: string, m: string -> nat)
    requires forall t :: m(t) <= |t|
    requires forall j :: 0 <= j < |p| ==> m(p[j..]) == 0
    ensures SplitBy(p, m) == [p]
  {
    SkipTo(p, m, 0, |p|);
  }

  /** The list `a, the b, and the c` splits into `a`, `the b` and `the c`. */
  lemma SplitThree(a: string, b: string, c: string)
    requires Word(a) && Word(b) && Word(c)
    ensures SplitItems(a + ", the " + b + ", and the " + c) == [a, "the " + b, "the " + c]
  {
    var third := "the " + c;
    var second := "the " + b;
    var rest2 := ", and " + third;
    var rest1 := ", " + (second + rest2);
    assert a + ", the " + b + ", and the " + c == a + rest1;
    var last := SplitItems(third);
    assert last == [third] by {
      TheWordNoSeparator(c, []);
      assert third + [] == third;
      SplitLast(third, SeparatorLen);
    }
    var two := SplitItems(second + rest2);
    assert two == [second] + last by {
      TheWordNoSeparator(b, rest2);
      CommaAndSeparator(third);
      SplitFirst(second, rest2, SeparatorLen, 6);
      assert rest2[6..] == third;
    }
    assert SplitItems(a + rest1) == [a] + two by {
      WordNoSeparator(a, rest1);
      assert second + rest2 == "the " + b + rest2;
      CommaSeparator(second + rest2);
      SplitFirst(a, rest1, SeparatorLen, 2);
      assert rest1[2..] == second + rest2;
    }
    assert [a] + ([second] + [third]) == [a, second, third];
  }

  /** Cleaning keeps a piece that does not clean to nothing, after those before it. */
  lemma KeptSnoc(pieces: seq<string>, p: string, clean: string -> string)
    requires clean(p) != []
    ensures KeptCleaned(pieces + [p], clean) == KeptCleaned(pieces, clean) + [clean(p)]
  {
    assert (pieces + [p])[..|pieces|] == pieces;
  }

  /** Three pieces that each clean to something clean to those three. */
  lemma KeptThree(x: string, y: string, z: string, clean: string -> string)
    requires clean(x) != [] && clean(y) != [] && clean(z) != []
    ensures KeptCleaned([x, y, z], clean) == [clean(x), clean(y), clean(z)]
  {
    KeptSnoc([], x, clean);
    assert [] + [x] == [x];
    KeptSnoc([x], y, clean);
    assert [x] + [y] == [x, y];
    KeptSnoc([x, y], z, clean);
    assert [x, y] + [z] == [x, y, z];
  }

  /** Cleaning the three pieces gives the three words back. */
  lemma CleanThree(a: string, b: string, c: string)
    requires Word(a) && Word(b) && Word(c)
    ensures CleanItems([a, "the " + b, "the " + c]) == [a, b, c]
  {
    CleanWord(a);
    CleanTheWord(b);
    CleanTheWord(c);
    KeptThree(a, "the " + b, "the " + c, CleanItem);
  }

  // ----- the lazy group ends at the first `into different drawer` -----

  /** No `into different drawer` starts at any of the first `n` positions of `y`. */
  predicate NoIntoUpTo(y: string, n: nat)
  {
    forall j :: 0 <= j < n ==> !OccursAt(y, IntoDrawers, j)
  }

  /** A character that differs from the phrase rules out the phrase there. */
  lemma NotIntoAt(t: string, k: nat, i: nat)
    requires i < |IntoDrawers| && k + i < |t| && t[k + i] != IntoDrawers[i]
    ensures !OccursAt(t, IntoDrawers, k)
  {
    if k + |IntoDrawers| <= |t| {
      assert t[k..k + |IntoDrawers|][i] == t[k + i];
    }
  }

  /** Past a prefix, occurrences are those of the rest, shifted. */
  lemma IntoShift(x: string, y: string, j: nat)
    ensures OccursAt(x + y, IntoDrawers, |x| + j) == OccursAt(y, IntoDrawers, j)
  {
    if |x| + j + |IntoDrawers| <= |x + y| {
      assert (x + y)[|x| + j..|x| + j + |IntoDrawers|] == y[j..j + |IntoDrawers|];
    }
  }

  /** Clear stretches join. */
  lemma NoIntoJoin(x: string, y: string, n: nat)
    requires NoIntoUpTo(x + y, |x|) && NoIntoUpTo(y, n)
    ensures NoIntoUpTo(x + y, |x| + n)
  {
    forall j | |x| <= j < |x| + n ensures !OccursAt(x + y, IntoDrawers, j) {
      IntoShift(x, y, j - |x|);
    }
  }

  /** Text whose every space is followed by something other than `i`, within it. */
  predicate SafeText(lit: string)
  {
    forall i :: 0 <= i < |lit| ==> lit[i] != ' ' || (i + 1 < |lit| && lit[i + 1] != 'i')
  }

  /** Such text holds no start of the phrase, whatever follows it. */
  lemma SafeNoInto(lit: string, y: string)
    requires SafeText(lit)
    ensures NoIntoUpTo(lit + y, |lit|)
  {
    var t := lit + y;
    forall j | 0 <= j < |lit| ensures !OccursAt(t, IntoDrawers, j) {
      assert t[j] == lit[j];
      if lit[j] != ' ' {
        NotIntoAt(t, j, 0);
      } else {
        assert t[j + 1] == lit[j + 1];
        NotIntoAt(t, j, 1);
      }
    }
  }

  /** A word has no space at all. */
  lemma WordSafe(w: string)
    requires Word(w)
    ensures SafeText(w)
  {
    forall i | 0 <= i < |w| ensures w[i] != ' ' { assert IsLowerLetter(w[i]); }
  }

  /**
   * A space and a word, before a character that is not a letter, start the
   * phrase only when the word is `into` and ` d` follows it.
   */
  lemma SpaceWordHead(w: string, y: string)
    requires Word(w)
    requires y != [] && !IsLowerLetter(y[0])
    requires |w| == 4 && y[0] == ' ' ==> |y| > 1 && y[1] != 'd'
    ensures !OccursAt(" " + (w + y), IntoDrawers, 0)
  {
    var t := " " + (w + y);
    assert t[1 + |w|] == y[0];
    if |w| < 4 {
      assert IsLowerLetter(IntoDrawers[1 + |w|]);
      NotIntoAt(t, 0, 1 + |w|);
    } else if |w| > 4 {
      assert t[5] == w[4] && IsLowerLetter(w[4]);
      NotIntoAt(t, 0, 5);
    } else if y[0] != ' ' {
      NotIntoAt(t, 0, 5);
    } else {
      assert t[6] == y[1];
      NotIntoAt(t, 0, 6);
    }
  }

  /** Nor does the phrase start inside the word. */
  lemma SpaceWordNoInto(w: string, y: string)
    requires Word(w)
    requires y != [] && !IsLowerLetter(y[0])
    requires |w| == 4 && y[0] == ' ' ==> |y| > 1 && y[1] != 'd'
    ensures NoIntoUpTo(" " + (w + y), 1 + |w|)
  {
    SpaceWordHead(w, y);
    WordSafe(w);
    SafeNoInto(w, y);
    NoIntoJoin(" ", w + y, |w|);
  }

  /** The lazy group runs from `j` to the first `e` where the phrase starts, with no line break before it. */
  lemma {:induction false} LazyGroupFirst(t: string, j: nat, p: nat, e: nat)
    requires j < p <= e <= |t|
    requires '\n' !in t[j..e]
    requires forall q :: p <= q < e ==> !OccursAt(t, IntoDrawers, q)
    requires OccursAt(t, IntoDrawers, e)
    ensures LazyGroup(t, j, p) == Some(t[j..e])
    decreases e - p
  {
    assert t[p - 1] == t[j..e][p - 1 - j];
    if p < e {
      LazyGroupFirst(t, j, p + 1, e);
    }
  }

  /** The part `, and the c` holds no start of the phrase. */
  lemma LastNoInto(c: string, rest: string)
    requires Word(c)
    ensures NoIntoUpTo(", and the " + c + IntoDrawers + rest, 10 + |c|)
  {
    var y6 := IntoDrawers + rest;
    var y5 := " " + (c + y6);
    SpaceWordNoInto(c, y6);
    SafeNoInto(", and the", y5);
    NoIntoJoin(", and the", y5, 1 + |c|);
    assert ", and the" + y5 == ", and the " + c + IntoDrawers + rest;
  }

  /** The listed items hold no start of the phrase. */
  lemma ListNoInto(a: string, b: string, c: string, rest: string)
    requires Word(a) && Word(b) && Word(c)
    ensures NoIntoUpTo(a + ", the " + b + ", and the " + c + IntoDrawers + rest, |a + ", the " + b + ", and the " + c|)
  {
    var y4 := ", and the " + c + IntoDrawers + rest;
    LastNoInto(c, rest);
    var y3 := " " + (b + y4);
    SpaceWordNoInto(b, y4);
    assert y3 == (" " + b) + y4;
    NoIntoJoin(" " + b, y4, 10 + |c|);
    var y2 := ", the" + y3;
    SafeNoInto(", the", y3);
    NoIntoJoin(", the", y3, 11 + |b| + |c|);
    WordSafe(a);
    SafeNoInto(a, y2);
    NoIntoJoin(a, y2, 16 + |b| + |c|);
    assert a + y2 == a + ", the " + b + ", and the " + c + IntoDrawers + rest;
  }

  /** Listed words hold no line break. */
  lemma ListNoBreak(a: string, b: string, c: string)
    requires Word(a) && Word(b) && Word(c)
    ensures '\n' !in a + ", the " + b + ", and the " + c
  {
    forall w | w in {a, b, c} ensures '\n' !in w {
      forall i | 0 <= i < |w| ensures w[i] != '\n' { assert IsLowerLetter(w[i]); }
    }
  }

  /** A lower-cased goal `place the <list> into different drawer...` is matched with `<list>` as the group. */
  lemma PlaceMatchFound(l: string, list: string, rest: string)
    requires list != [] && '\n' !in list
    requires NoIntoUpTo(list + IntoDrawers + rest, |list|)
    requires l == "place the " + (list + IntoDrawers + rest)
    ensures Search(l, PlaceMatch, 0) == Some((0, list))
  {
    var y := list + IntoDrawers + rest;
    var e := 10 + |list|;
    forall q | 11 <= q < e ensures !OccursAt(l, IntoDrawers, q) {
      IntoShift("place the ", y, q - 10);
    }
    OccursInConcat(list, IntoDrawers, rest);
    IntoShift("place the ", y, |list|);
    assert l[10..e] == list;
    LazyGroupFirst(l, 10, 11, e);
    assert l[..6] == "place " && l[6..10] == "the ";
    assert PlaceMatch(l) == Some(list);
    assert l[0..] == l;
    SearchFinds(l, PlaceMatch, 0, list);
  }

  /** What the goal's match holds is split and cleaned into the items. */
  lemma ItemsOfMatch(goal: string, list: string)
    requires Search(Lower(goal), PlaceMatch, 0) == Some((0, list))
    ensures ItemsToPlace(goal) == CleanItems(SplitItems(list))
  {
  }

  lemma Assoc(x: string, y: string, z: string)
    ensures (x + y) + z == x + (y + z)
  {
  }

  /** The goal is the verb, then the list with the phrase and what follows. */
  lemma GoalShape(a: string, b: string, c: string, rest: string)
    ensures "place the " + a + ", the " + b + ", and the " + c + IntoDrawers + rest ==
            "place the " + (a + ", the " + b + ", and the " + c + IntoDrawers + rest)
  {
    var p := "place the ";
    Assoc(p, a, ", the ");
    Assoc(p, a + ", the ", b);
    Assoc(p, a + ", the " + b, ", and the ");
    Assoc(p, a + ", the " + b + ", and the ", c);
    Assoc(p, a + ", the " + b + ", and the " + c, IntoDrawers);
    Assoc(p, a + ", the " + b + ", and the " + c + IntoDrawers, rest);
  }

  /**
   * A goal that reads, once lower-cased, `place the a, the b, and the c into
   * different drawer...` names exactly the items a, b and c, in that order.
   */
  lemma ItemsToPlaceThree(goal: string, a: string, b: string, c: string, rest: string)
    requires Word(a) && Word(b) && Word(c)
    requires Lower(goal) == "place the " + a + ", the " + b + ", and the " + c + IntoDrawers + rest
    ensures ItemsToPlace(goal) == [a, b, c]
  {
    var list := a + ", the " + b + ", and the " + c;
    GoalShape(a, b, c, rest);
    ListNoInto(a, b, c, rest);
    ListNoBreak(a, b, c);
    PlaceMatchFound(Lower(goal), list, rest);
    ItemsOfMatch(goal, list);
    SplitThree(a, b, c);
    CleanThree(a, b, c);
  }
}
