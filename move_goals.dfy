// The type-1 judge read on a goal of the shape the task files use,
// "move all <colour>_cubes into <box>_box": the goal selects exactly the
// cubes of that colour and names that box, and the verdict is the box test.
module MoveGoals {
  import opened Text
  import opened SceneAnalysis
  import opened ReportScene
  import opened MoveJudge
  import ColourJudges
  import DrawerGoals

  /** The lowered goal, cut where its parts meet. */
  predicate Laid(l: string, c: string, b: string)
  {
    DrawerGoals.Word(c) && DrawerGoals.Word(b) &&
    |l| == 25 + |c| + |b| &&
    l[..9] == "move all " && l[9..9 + |c|] == c &&
    l[9 + |c|..21 + |c|] == "_cubes into " && l[21 + |c|..] == b + "_box"
  }

  lemma Layout(l: string, c: string, b: string)
    requires DrawerGoals.Word(c) && DrawerGoals.Word(b)
    requires l == "move all " + c + "_cubes into " + b + "_box"
    ensures Laid(l, c, b)
  {
  }

  /** From the colour to the space before `into`, every character is a word character. */
  lemma WordRegion(l: string, c: string, b: string)
    requires Laid(l, c, b)
    ensures forall i :: 9 <= i < 15 + |c| ==> IsWordChar(l[i])
    ensures forall i :: 9 + |c| < i <= 15 + |c| ==> l[i] != '_'
    ensures l[9 + |c|] == '_' && l[15 + |c|] == ' ' && l[21 + |c|] == b[0]
  {
    forall i | 9 <= i < 15 + |c|
      ensures IsWordChar(l[i])
    {
      if i < 9 + |c| {
        assert l[i] == l[9..9 + |c|][i - 9] == c[i - 9];
        assert DrawerGoals.IsLowerLetter(c[i - 9]);
      } else {
        assert l[i] == l[9 + |c|..21 + |c|][i - 9 - |c|];
      }
    }
    assert l[9 + |c|] == l[9 + |c|..21 + |c|][0];
    assert l[15 + |c|] == l[9 + |c|..21 + |c|][6];
    assert l[21 + |c|] == l[21 + |c|..][0] == (b + "_box")[0];
  }

  /** A slice of a known stretch is the same slice of what it holds. */
  lemma Inside(l: string, q: nat, w: string, i: nat, j: nat)
    requires q + |w| <= |l| && l[q..q + |w|] == w && i <= j <= |w|
    ensures l[q + i..q + j] == w[i..j]
  {
    forall k | 0 <= k < j - i
      ensures l[q + i..q + j][k] == w[i..j][k]
    {
      assert l[q + i + k] == l[q..q + |w|][i + k];
    }
  }

  /** A run of spaces of length one. */
  lemma OneSpace(t: string)
    requires |t| >= 2 && IsSpace(t[0]) && !IsSpace(t[1])
    ensures Run(t, IsSpace) == 1
  {
    assert Run(t[1..], IsSpace) == 0;
  }

  /** `move\s+all\s+` ends where the colour starts. */
  lemma MoveAll(l: string, c: string, b: string)
    requires Laid(l, c, b)
    ensures Keyword(l, 0, "move") == Some(5) && Keyword(l, 5, "all") == Some(9)
  {
    assert l[..4] == l[..9][..4];
    assert l[5..8] == l[..9][5..8];
    WordRegion(l, c, b);
    OneSpace(l[4..]);
    OneSpace(l[8..]);
  }

  /** The colour does not start with `the` and spaces. */
  lemma NoThe(l: string, c: string, b: string)
    requires Laid(l, c, b)
    ensures Keyword(l, 9, "the").None?
  {
    WordRegion(l, c, b);
    assert l[12..][0] == l[12];
  }

  /** The backtracking stops nowhere above an `_`. */
  lemma {:induction false} ColourSkip(l: string, r: nat, j: nat, k: nat)
    requires j <= k && r + k <= |l|
    requires forall i :: r + j < i <= r + k && i < |l| ==> l[i] != '_'
    ensures ColourFrom(l, r, k) == ColourFrom(l, r, j)
    decreases k - j
  {
    if j < k {
      ColourSkip(l, r, j, k - 1);
    }
  }

  /** ` into ` followed by a word. */
  lemma IntoAt(l: string, q: nat)
    requires q + 6 < |l| && l[q..q + 6] == " into " && !IsSpace(l[q + 6])
    ensures InTail(l, q) == Some(q + 6)
  {
    Inside(l, q, " into ", 1, 5);
    OneSpace(l[q..]);
    OneSpace(l[q + 5..]);
  }

  /** `cubes into ` followed by a word. */
  lemma CubesAt(l: string, p: nat)
    requires p + 11 < |l| && l[p..p + 11] == "cubes into " && !IsSpace(l[p + 11])
    ensures KindThenIn(l, p) == Some("cube")
  {
    assert l[p..p + 5] == l[p..p + 11][..5];
    assert l[p + 5..p + 11] == l[p..p + 11][5..];
    IntoAt(l, p + 5);
  }

  /** No `\s+(?:into|in)\s+` where no space is, nor at a space followed by a word that is not `in` or `into` and spaces. */
  lemma NoSeparatorAt(t: string)
    requires |t| > 5
    requires IsSpace(t[0]) ==> !IsSpace(t[1]) && (t[1] != 'i' || (!IsSpace(t[3]) && !IsSpace(t[5])))
    ensures InSeparator(t).None?
  {
    if IsSpace(t[0]) {
      OneSpace(t);
    }
  }

  /** The word run from the colour ends at the space before `into`. */
  lemma ColourRun(l: string, c: string, b: string)
    requires Laid(l, c, b)
    ensures Run(l[9..], IsWordChar) == |c| + 6
  {
    WordRegion(l, c, b);
    assert l[9..] == l[9..15 + |c|] + l[15 + |c|..];
    RunOfConcat(l[9..15 + |c|], l[15 + |c|..], IsWordChar);
  }

  /** The greedy colour pattern gives back the colour and the kind. */
  lemma ColourOfGoal(l: string, c: string, b: string)
    requires Laid(l, c, b)
    ensures ColourSelection(l) == Some((c, "cube"))
  {
    WordRegion(l, c, b);
    MoveAll(l, c, b);
    NoThe(l, c, b);
    ColourRun(l, c, b);
    ColourSkip(l, 9, |c|, |c| + 6);
    assert l[10 + |c|..21 + |c|] == l[9 + |c|..21 + |c|][1..];
    CubesAt(l, 10 + |c|);
    assert ColourFrom(l, 9, |c|) == Some((c, "cube"));
  }

  /** Before the colour only the two spaces of `move all ` are spaces, and neither starts a separator. */
  lemma NoSeparatorBefore(l: string, c: string, b: string, j: nat)
    requires Laid(l, c, b) && j < 15 + |c|
    ensures InSeparator(l[j..]).None?
  {
    WordRegion(l, c, b);
    if j < 9 {
      assert l[j] == l[..9][j];
      if j == 4 {
        assert l[5] == l[..9][5];
      }
    }
    NoSeparatorAt(l[j..]);
  }

  /** The first `\s+(?:into|in)\s+` is the one after the colour. */
  lemma FirstSeparator(l: string, c: string, b: string)
    requires Laid(l, c, b)
    ensures Search(l, InSeparator, 0) == Some(((15 + |c|) as nat, 6 as nat))
  {
    WordRegion(l, c, b);
    var q := 15 + |c|;
    Inside(l, 9 + |c|, "_cubes into ", 6, 12);
    assert l[q..][..6] == l[q..q + 6];
    IntoAt(l[q..], 0);
    forall j | 0 <= j < q
      ensures InSeparator(l[j..]).None?
    {
      NoSeparatorBefore(l, c, b, j);
    }
    SearchFinds(l, InSeparator, q, 6);
  }

  /** `<box>_box` is its own first word, stripped and trimmed. */
  lemma BoxWord(b: string)
    requires DrawerGoals.Word(b)
    ensures var box := b + "_box"; var rest := Strip(box); rest != [] && TrimTrailing(rest[..Run(rest, NotSpace)]) == box
  {
    var box := b + "_box";
    assert box[|box| - 1] == 'x';
    assert box[0] == b[0];
    StripNoop(box);
    assert AllChars(box, NotSpace) by {
      forall i | 0 <= i < |box|
        ensures NotSpace(box[i])
      {
        if i < |b| {
          assert DrawerGoals.IsLowerLetter(b[i]);
        }
      }
    }
    RunOfConcat(box, [], NotSpace);
    assert box + [] == box;
    assert box[..|box|] == box;
  }

  /** The word after `into` is the box. */
  lemma BoxOfGoal(l: string, c: string, b: string)
    requires Laid(l, c, b)
    ensures TargetWord(l) == Said(b + "_box")
  {
    assert OccursAt(l, "into", 16 + |c|) by {
      Inside(l, 9 + |c|, "_cubes into ", 7, 11);
    }
    FirstSeparator(l, c, b);
    BoxWord(b);
  }

  /**
   * "move all <colour>_cubes into <box>_box", in any case: the judge succeeds
   * exactly when every cube of that colour is in that box.
   */
  lemma MoveColourCubes(g: Graph, goal: string, c: string, b: string)
    requires DrawerGoals.Word(c) && DrawerGoals.Word(b)
    requires Lower(goal) == "move all " + c + "_cubes into " + b + "_box"
    ensures MoveInto(g, goal).Some?
    ensures MoveInto(g, goal).value.success <==>
      forall o :: o in g.nodes && ColourJudges.IsColourObject(o, c, "cube") ==> CurrentLocation(g.edges, o) == b + "_box"
  {
    var l := Lower(goal);
    var box := b + "_box";
    Layout(l, c, b);
    ColourOfGoal(l, c, b);
    BoxOfGoal(l, c, b);
    assert SelectionOf(l) == Coloured(c, "cube");
    assert box[|box| - 4..] == "_box";
    assert TargetOf(box, g.nodes) == Some(box);
    MoveIntoVerdict(g, goal);
  }
}
